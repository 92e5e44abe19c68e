/**
 `Executor.Execute` of pkg/idempotency/executor.go, as the sequence of atomic steps it takes.

 `Step` is one step of one caller: a storage call, or the return of `fn`.  It is the program
 text every caller runs; module IdempotencyProtocol interleaves any number of callers.
 `Executor.Execute` is the same program as straight-line code, proved to take exactly these
 steps in this order when nobody interferes.
 */
module IdempotencyExecutor {
  import opened Wrappers
  import opened MemoryStore

  const SECOND: Time := 1_000_000_000

  datatype Config = Config(lockTTL: Time, completeTTL: Time)

  datatype ConfigOption = WithLockTTL(ttl: Time) | WithCompleteTTL(ttl: Time)

  /** JSON encoding, which may fail, and decoding, which may reject its input. */
  datatype Codec<!T> = Codec(encode: T -> Option<Bytes>, decode: Bytes -> Option<T>, zero: T)

  /** What Execute needs of the encoder: decoding gives back what was encoded, and no encoding is empty. */
  ghost predicate Faithful<T(!new)>(codec: Codec<T>) {
    forall v: T :: codec.encode(v).Some? ==>
      codec.encode(v).value != [] && codec.decode(codec.encode(v).value) == Some(v)
  }

  /** How `fn` ends. */
  datatype FnResult<T> = FnOk(value: T) | FnErr(error: string) | FnPanic

  /** How a storage call ends: it works, or reports an error without (Lost) or after (Late) taking effect. */
  datatype Fault = NoFault | Lost | Late

  datatype Outcome<T> =
    | Returned(value: T)
    | Failed(error: string)
    | Concurrent
    | CheckFailed
    | BadCache
    | LockFailed
    | MarshalFailed
    | SaveFailed(value: T)
    | Panicked

  /** Where a caller is.  `until` is the expiry of the lock it took. */
  datatype Phase<T> =
    | Fresh
    | Direct
    | Missed
    | Running(until: Time)
    | Releasing(until: Time, error: string)
    | Saving(until: Time, value: T, body: Bytes)
    | Done(outcome: Outcome<T>)

  datatype Choice<T> = Call(fault: Fault) | Fn(result: FnResult<T>)

  /** Which kind of step the phase takes next. */
  predicate Offers<T>(phase: Phase<T>, choice: Choice<T>) {
    match phase
    case Fresh | Missed | Releasing(_, _) | Saving(_, _, _) => choice.Call?
    case Direct | Running(_) => choice.Fn?
    case Done(_) => false
  }

  function Through(fault: Fault, before: Items, after: Items): Items {
    if fault.Lost? then before else after
  }

  /** The verdict on a record that Get returned; None means go on and take the lock. */
  function Settle<T>(codec: Codec<T>, record: Option<Record>): Option<Outcome<T>> {
    if record.None? then None
    else
      match record.value.status
      case Completed =>
        if record.value.response == [] then Some(Returned(codec.zero))
        else
          (match codec.decode(record.value.response)
           case Some(v) => Some(Returned(v))
           case None => Some(BadCache))
      case InProgress => Some(Concurrent)
      case Unrecognized => None
  }

  function Step<T>(cfg: Config, codec: Codec<T>, items: Items, key: Key, phase: Phase<T>, choice: Choice<T>, now: Time)
    : (Items, Phase<T>)
    requires Offers(phase, choice)
  {
    match phase
    case Fresh =>
      if key == "" then (items, Direct)
      else if choice.fault != NoFault then (items, Done(CheckFailed))
      else
        (match Settle(codec, Lookup(items, key, now))
         case Some(outcome) => (items, Done(outcome))
         case None => (items, Missed))
    case Direct =>
      (match choice.result
       case FnOk(v) => (items, Done(Returned(v)))
       case FnErr(e) => (items, Done(Failed(e)))
       case FnPanic => (items, Done(Panicked)))
    case Missed =>
      var (locked, answer) := Perform(items, Lock(key, cfg.lockTTL), now);
      if choice.fault != NoFault then (Through(choice.fault, items, locked), Done(LockFailed))
      else if answer == Acquired(false) then (locked, Done(Concurrent))
      else (locked, Running(now + cfg.lockTTL))
    case Running(until) =>
      (match choice.result
       case FnErr(e) => (items, Releasing(until, e))
       case FnPanic => (items, Done(Panicked))
       case FnOk(v) =>
         match codec.encode(v)
         case None => (items, Done(MarshalFailed))
         case Some(body) => (items, Saving(until, v, body)))
    case Releasing(_, e) =>
      (Through(choice.fault, items, Perform(items, Delete(key), now).0), Done(Failed(e)))
    case Saving(_, v, body) =>
      var saved := Perform(items, Set(key, Record(Completed, body, now), cfg.completeTTL), now).0;
      (Through(choice.fault, items, saved), Done(if choice.fault == NoFault then Returned(v) else SaveFailed(v)))
  }

  // ---- The configuration ----

  const DEFAULTS := Config(120 * SECOND, 86400 * SECOND)

  function ApplyOption(cfg: Config, opt: ConfigOption): Config {
    match opt
    case WithLockTTL(ttl) => if ttl > 0 then cfg.(lockTTL := ttl) else cfg
    case WithCompleteTTL(ttl) => if ttl > 0 then cfg.(completeTTL := ttl) else cfg
  }

  function Configure(opts: seq<ConfigOption>): Config {
    if opts == [] then DEFAULTS else ApplyOption(Configure(opts[..|opts| - 1]), opts[|opts| - 1])
  }

  /** The last positive setting of each lease is the one in force; without one, two minutes and a day are. */
  lemma {:induction false} ConfiguredLeases(opts: seq<ConfigOption>)
    ensures Configure(opts).lockTTL > 0 && Configure(opts).completeTTL > 0
    ensures forall i :: 0 <= i < |opts| && opts[i].WithLockTTL? && opts[i].ttl > 0
              && (forall j :: i < j < |opts| ==> opts[j].WithLockTTL? ==> opts[j].ttl <= 0)
              ==> Configure(opts).lockTTL == opts[i].ttl
    ensures forall i :: 0 <= i < |opts| && opts[i].WithCompleteTTL? && opts[i].ttl > 0
              && (forall j :: i < j < |opts| ==> opts[j].WithCompleteTTL? ==> opts[j].ttl <= 0)
              ==> Configure(opts).completeTTL == opts[i].ttl
    ensures (forall j :: 0 <= j < |opts| && opts[j].WithLockTTL? ==> opts[j].ttl <= 0) ==>
              Configure(opts).lockTTL == 2 * 60 * SECOND
    ensures (forall j :: 0 <= j < |opts| && opts[j].WithCompleteTTL? ==> opts[j].ttl <= 0) ==>
              Configure(opts).completeTTL == 24 * 60 * 60 * SECOND
  {
    if opts != [] {
      var front := opts[..|opts| - 1];
      ConfiguredLeases(front);
      forall i | 0 <= i < |opts| && opts[i].WithLockTTL? && opts[i].ttl > 0
          && (forall j :: i < j < |opts| ==> opts[j].WithLockTTL? ==> opts[j].ttl <= 0)
        ensures Configure(opts).lockTTL == opts[i].ttl
      {
        if i < |front| {
          assert front[i] == opts[i];
          assert forall j :: i < j < |front| ==> front[j] == opts[j];
        }
      }
      forall i | 0 <= i < |opts| && opts[i].WithCompleteTTL? && opts[i].ttl > 0
          && (forall j :: i < j < |opts| ==> opts[j].WithCompleteTTL? ==> opts[j].ttl <= 0)
        ensures Configure(opts).completeTTL == opts[i].ttl
      {
        if i < |front| {
          assert front[i] == opts[i];
          assert forall j :: i < j < |front| ==> front[j] == opts[j];
        }
      }
    }
  }

  // ---- One caller left alone ----

  /** The clock reading of a storage call, and whether it fails. */
  datatype Access = Access(at: Time, fault: Fault)

  /** The storage calls of one Execute: the check, the lock, and the final Delete or Set. */
  datatype Accesses = Accesses(check: Access, lock: Access, settle: Access)

  function AccessFor<T>(accesses: Accesses, phase: Phase<T>): Access {
    match phase
    case Fresh => accesses.check
    case Missed => accesses.lock
    case _ => accesses.settle
  }

  /** The next step of a caller; a finished call stays as it is. */
  function Advance<T>(
      cfg: Config, codec: Codec<T>, local: (Items, Phase<T>), key: Key, fn: FnResult<T>, accesses: Accesses)
    : (Items, Phase<T>)
  {
    var (items, phase) := local;
    if phase.Done? then local
    else
      var access := AccessFor(accesses, phase);
      var choice := if phase.Direct? || phase.Running? then Fn(fn) else Call(access.fault);
      Step(cfg, codec, items, key, phase, choice, access.at)
  }

  /** A whole call without interference: at most a check, a lock, `fn`, and a Delete or Set. */
  function Alone<T>(cfg: Config, codec: Codec<T>, items: Items, key: Key, fn: FnResult<T>, accesses: Accesses)
    : (Items, Phase<T>)
  {
    var checked := Advance(cfg, codec, (items, Fresh), key, fn, accesses);
    var locked := Advance(cfg, codec, checked, key, fn, accesses);
    var ran := Advance(cfg, codec, locked, key, fn, accesses);
    Advance(cfg, codec, ran, key, fn, accesses)
  }

  /** fn's own result, passed through. */
  function PassedThrough<T>(fn: FnResult<T>): Outcome<T> {
    match fn
    case FnOk(v) => Returned(v)
    case FnErr(e) => Failed(e)
    case FnPanic => Panicked
  }

  /** Without a key, a call is fn's call and nothing else, whatever the store would have answered. */
  lemma EmptyKeyAlone<T>(cfg: Config, codec: Codec<T>, items: Items, fn: FnResult<T>, accesses: Accesses)
    ensures Alone(cfg, codec, items, "", fn, accesses) == (items, Done(PassedThrough(fn)))
  {
  }

  /** The record that answers a call's check, if its item has not run out. */
  function Seen(items: Items, key: Key, now: Time): Option<Record> {
    if key in items && now <= items[key].expiresAt then Some(items[key].record) else None
  }

  /** A call with a key that its check already answers: fn does not run, and nothing changes. */
  lemma AnsweredByCheck<T>(
      cfg: Config, codec: Codec<T>, items: Items, key: Key, fn: FnResult<T>, accesses: Accesses)
    requires key != ""
    requires accesses.check.fault != NoFault
             || (Seen(items, key, accesses.check.at).Some?
                 && !Seen(items, key, accesses.check.at).value.status.Unrecognized?)
    ensures var (after, phase) := Alone(cfg, codec, items, key, fn, accesses);
            && after == items && phase.Done?
            && (accesses.check.fault != NoFault ==> phase.outcome == CheckFailed)
            && (accesses.check.fault == NoFault ==>
                  var record := Seen(items, key, accesses.check.at).value;
                  && (record.status == InProgress ==> phase.outcome == Concurrent)
                  && (record.status == Completed && record.response == [] ==> phase.outcome == Returned(codec.zero))
                  && (record.status == Completed && record.response != [] ==>
                        match codec.decode(record.response)
                        case Some(v) => phase.outcome == Returned(v)
                        case None => phase.outcome == BadCache))
  {
  }

  /** A call that gets past its check: it is refused by Lock, or fn runs and its end decides. */
  lemma AnsweredByFn<T>(
      cfg: Config, codec: Codec<T>, items: Items, key: Key, fn: FnResult<T>, accesses: Accesses)
    requires key != "" && accesses.check.fault == NoFault
    requires Seen(items, key, accesses.check.at).Some? ==>
               Seen(items, key, accesses.check.at).value.status.Unrecognized?
    ensures var outcome := Alone(cfg, codec, items, key, fn, accesses).1;
            outcome == Done(
              if accesses.lock.fault != NoFault then LockFailed
              else if key in items && accesses.lock.at < items[key].expiresAt then Concurrent
              else
                match fn
                case FnPanic => Panicked
                case FnErr(e) => Failed(e)
                case FnOk(v) =>
                  if codec.encode(v).None? then MarshalFailed
                  else if accesses.settle.fault != NoFault then SaveFailed(v)
                  else Returned(v))
  {
  }

  /** The storage interface: the contract of the in-memory store, with calls that may fail. */
  class Storage {
    const store: MemoryStorage

    constructor (store: MemoryStorage)
      ensures this.store == store
    {
      this.store := store;
    }

    method Get(key: Key, access: Access) returns (record: Option<Record>, err: bool)
      ensures err <==> access.fault != NoFault
      ensures !err ==> record == Lookup(store.items, key, access.at)
    {
      record, err := None, access.fault != NoFault;
      if !err {
        record := store.Get(key, access.at);
      }
    }

    method Lock(key: Key, ttl: Time, access: Access) returns (acquired: bool, err: bool)
      modifies store
      ensures err <==> access.fault != NoFault
      ensures var (after, answer) := Perform(old(store.items), Action.Lock(key, ttl), access.at);
              store.items == Through(access.fault, old(store.items), after) && (!err ==> answer == Acquired(acquired))
    {
      acquired, err := false, access.fault != NoFault;
      if !access.fault.Lost? {
        acquired := store.Lock(key, ttl, access.at);
      }
    }

    method Set(key: Key, record: Record, ttl: Time, access: Access) returns (err: bool)
      modifies store
      ensures err <==> access.fault != NoFault
      ensures store.items == Through(access.fault, old(store.items),
                                     Perform(old(store.items), Action.Set(key, record, ttl), access.at).0)
    {
      err := access.fault != NoFault;
      if !access.fault.Lost? {
        store.Set(key, record, ttl, access.at);
      }
    }

    method Delete(key: Key, access: Access) returns (err: bool)
      modifies store
      ensures err <==> access.fault != NoFault
      ensures store.items == Through(access.fault, old(store.items),
                                     Perform(old(store.items), Action.Delete(key), access.at).0)
    {
      err := access.fault != NoFault;
      if !access.fault.Lost? {
        store.Delete(key);
      }
    }
  }

  class Executor<T> {
    const storage: Storage
    const cfg: Config
    const codec: Codec<T>

    constructor (storage: Storage, opts: seq<ConfigOption>, codec: Codec<T>)
      ensures this.storage == storage && this.codec == codec && cfg == Configure(opts)
    {
      var c := DEFAULTS;
      for i := 0 to |opts|
        invariant c == Configure(opts[..i])
      {
        assert opts[..i + 1][..i] == opts[..i];
        match opts[i] {
          case WithLockTTL(ttl) => if ttl > 0 { c := c.(lockTTL := ttl); }
          case WithCompleteTTL(ttl) => if ttl > 0 { c := c.(completeTTL := ttl); }
        }
      }
      assert opts[..|opts|] == opts;
      this.storage := storage;
      this.cfg := c;
      this.codec := codec;
    }

    method Execute(key: Key, fn: FnResult<T>, accesses: Accesses) returns (outcome: Outcome<T>)
      modifies storage.store
      ensures (storage.store.items, Done(outcome)) == Alone(cfg, codec, old(storage.store.items), key, fn, accesses)
    {
      if key == "" {
        match fn {
          case FnOk(v) => return Returned(v);
          case FnErr(e) => return Failed(e);
          case FnPanic => return Panicked;
        }
      }
      var record, checkErr := storage.Get(key, accesses.check);
      if checkErr {
        return CheckFailed;
      }
      if record.Some? {
        match record.value.status {
          case Completed =>
            var cached := codec.zero;
            if |record.value.response| > 0 {
              match codec.decode(record.value.response) {
                case None => return BadCache;
                case Some(v) => cached := v;
              }
            }
            return Returned(cached);
          case InProgress =>
            return Concurrent;
          case Unrecognized =>
        }
      }
      var acquired, lockErr := storage.Lock(key, cfg.lockTTL, accesses.lock);
      if lockErr {
        return LockFailed;
      }
      if !acquired {
        return Concurrent;
      }
      match fn {
        case FnPanic =>
          return Panicked;
        case FnErr(e) =>
          var _ := storage.Delete(key, accesses.settle);
          return Failed(e);
        case FnOk(v) =>
          match codec.encode(v) {
            case None => return MarshalFailed;
            case Some(body) =>
              var completed := Record(Completed, body, accesses.settle.at);
              var saveErr := storage.Set(key, completed, cfg.completeTTL, accesses.settle);
              return if saveErr then SaveFailed(v) else Returned(v);
          }
      }
    }
  }
}
