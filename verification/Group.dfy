/**
 The task group of pkg/routine/group.go.

 The atomic events are the wait-group and semaphore operations, the context check, the end of
 `fn`, and the two statements inside `errOnce.Do` (store the error, cancel the context), between
 which other goroutines may run.  A run is any sequence of enabled events.
 `doneEarly` is history: the context ended, through the parent or the timeout, before the group had
 cancelled it, be it after an error or in Wait.
 */
module GroupModel {
  import opened Wrappers

  type TaskId = nat

  /** How far a task got with `fn`. */
  datatype Ran = Skipped | Succeeded | Errored(error: string)

  /**
   Waiting: counted, at the semaphore.  Dropped: left there because the context ended.
   Spawned: goroutine started.  Failed: recordError ahead.  Cancelling: inside errOnce.Do.
   Ending: the deferred release ahead.  Released: wg.Done ahead.  Finished: gone.
   */
  datatype Stage =
    | Waiting
    | Dropped
    | Spawned
    | InFn
    | Failed(error: string)
    | Cancelling(error: string)
    | Ending(ran: Ran)
    | Released(ran: Ran)
    | Finished(ran: Ran)

  datatype Once = Unused | Busy(holder: TaskId) | Spent

  datatype State = State(
    limit: Option<nat>, done: bool, tokens: int, count: int, err: Option<string>, once: Once,
    tasks: map<TaskId, Stage>, waited: bool, doneEarly: bool)

  datatype Event =
    | Submit(t: TaskId)
    | Acquire(t: TaskId)
    | Drop(t: TaskId)
    | Check(t: TaskId)
    | Return(t: TaskId, err: Option<string>)
    | Panic(t: TaskId, message: string)
    | Record(t: TaskId)
    | CancelContext(t: TaskId)
    | Release(t: TaskId)
    | WgDone(t: TaskId)
    | ParentDone
    | Wait

  /** WithLimit: only a positive limit creates the semaphore. */
  function Init(limit: int): State {
    State(if limit > 0 then Some(limit) else None, false, 0, 0, None, Unused, map[], false, false)
  }

  function PanicError(message: string): string {
    "routine.Group: panic recovered: " + message
  }

  predicate At(s: State, t: TaskId, stage: Stage) {
    t in s.tasks && s.tasks[t] == stage
  }

  predicate Enabled(s: State, e: Event) {
    match e
    case Submit(t) => t !in s.tasks && !s.waited
    case Acquire(t) => At(s, t, Waiting) && (s.limit.Some? ==> s.tokens < s.limit.value)
    case Drop(t) => At(s, t, Waiting) && s.limit.Some? && s.done
    case Check(t) => At(s, t, Spawned)
    case Return(t, _) => At(s, t, InFn)
    case Panic(t, _) => At(s, t, InFn)
    case Record(t) => t in s.tasks && s.tasks[t].Failed? && !s.once.Busy?
    case CancelContext(t) => t in s.tasks && s.tasks[t].Cancelling?
    case Release(t) => t in s.tasks && s.tasks[t].Ending? && (s.limit.Some? ==> s.tokens > 0)
    case WgDone(t) => t in s.tasks && s.tasks[t].Released?
    case ParentDone => true
    case Wait => s.count == 0 && !s.waited
  }

  function Move(s: State, t: TaskId, stage: Stage): State {
    s.(tasks := s.tasks[t := stage])
  }

  function Apply(s: State, e: Event): State
    requires Enabled(s, e)
  {
    match e
    case Submit(t) => Move(s, t, Waiting).(count := s.count + 1)
    case Acquire(t) => Move(s, t, Spawned).(tokens := if s.limit.Some? then s.tokens + 1 else s.tokens)
    case Drop(t) => Move(s, t, Dropped).(count := s.count - 1)
    case Check(t) => Move(s, t, if s.done then Ending(Skipped) else InFn)
    case Return(t, err) => Move(s, t, if err.None? then Ending(Succeeded) else Failed(err.value))
    case Panic(t, message) => Move(s, t, Failed(PanicError(message)))
    case Record(t) =>
      var error := s.tasks[t].error;
      if s.once == Unused then Move(s, t, Cancelling(error)).(err := Some(error), once := Busy(t))
      else Move(s, t, Ending(Errored(error)))
    case CancelContext(t) => Move(s, t, Ending(Errored(s.tasks[t].error))).(done := true, once := Spent)
    case Release(t) =>
      Move(s, t, Released(s.tasks[t].ran)).(tokens := if s.limit.Some? then s.tokens - 1 else s.tokens)
    case WgDone(t) => Move(s, t, Finished(s.tasks[t].ran)).(count := s.count - 1)
    case ParentDone => s.(done := true, doneEarly := s.doneEarly || !s.done)
    case Wait => s.(done := true, waited := true)
  }

  // ---- Runs ----

  ghost predicate Legal(limit: int, es: seq<Event>)
    decreases |es|, 0
  {
    es == [] || (Legal(limit, es[..|es| - 1]) && Enabled(After(limit, es[..|es| - 1]), es[|es| - 1]))
  }

  ghost function After(limit: int, es: seq<Event>): State
    requires Legal(limit, es)
    decreases |es|, 1
  {
    if es == [] then Init(limit) else Apply(After(limit, es[..|es| - 1]), es[|es| - 1])
  }

  lemma {:induction false} PrefixLegal(limit: int, es: seq<Event>, i: nat)
    requires Legal(limit, es) && i <= |es|
    ensures Legal(limit, es[..i])
    ensures i < |es| ==> Legal(limit, es[..i + 1]) && Enabled(After(limit, es[..i]), es[i])
                         && After(limit, es[..i + 1]) == Apply(After(limit, es[..i]), es[i])
    decreases |es|
  {
    assert es[..|es|] == es;
    if i < |es| - 1 {
      var front := es[..|es| - 1];
      assert front[..i] == es[..i] && front[..i + 1] == es[..i + 1];
      PrefixLegal(limit, front, i);
    }
  }

  // ---- Accounting ----

  /** Counted by the wait group: waiting submitters and goroutines that have not called Done. */
  predicate Counted(stage: Stage) {
    !stage.Dropped? && !stage.Finished?
  }

  /** Between taking a semaphore slot and giving it back. */
  predicate HoldsSlot(stage: Stage) {
    Counted(stage) && !stage.Waiting? && !stage.Released?
  }

  function Those(tasks: map<TaskId, Stage>, p: Stage -> bool): set<TaskId> {
    set t | t in tasks && p(tasks[t])
  }

  function Pending(tasks: map<TaskId, Stage>): set<TaskId> {
    Those(tasks, Counted)
  }

  function Holders(tasks: map<TaskId, Stage>): set<TaskId> {
    Those(tasks, HoldsSlot)
  }

  function InsideFn(tasks: map<TaskId, Stage>): set<TaskId> {
    Those(tasks, (stage: Stage) => stage.InFn?)
  }

  ghost predicate Balanced(s: State) {
    && s.count == |Pending(s.tasks)|
    && (s.limit.Some? ==> s.tokens == |Holders(s.tasks)| && s.tokens <= s.limit.value)
  }

  /** How a count changes when one task moves. */
  lemma MoveSize(tasks: map<TaskId, Stage>, p: Stage -> bool, t: TaskId, stage: Stage)
    ensures |Those(tasks[t := stage], p)|
            == |Those(tasks, p)| - (if t in tasks && p(tasks[t]) then 1 else 0) + (if p(stage) then 1 else 0)
  {
    var before, after := Those(tasks, p), Those(tasks[t := stage], p);
    assert after - {t} == before - {t};
    WithoutOne(before, t);
    WithoutOne(after, t);
  }

  lemma WithoutOne(a: set<TaskId>, t: TaskId)
    ensures |a - {t}| == |a| - if t in a then 1 else 0
  {
    if t !in a {
      assert a - {t} == a;
    }
  }

  lemma EventKeepsCount(s: State, e: Event)
    requires s.count == |Pending(s.tasks)| && Enabled(s, e)
    ensures Apply(s, e).count == |Pending(Apply(s, e).tasks)|
  {
    if !e.ParentDone? && !e.Wait? {
      MoveSize(s.tasks, Counted, e.t, Apply(s, e).tasks[e.t]);
    }
  }

  lemma EventKeepsTokens(s: State, e: Event)
    requires s.limit.Some? && s.tokens == |Holders(s.tasks)| && s.tokens <= s.limit.value && Enabled(s, e)
    ensures var s' := Apply(s, e); s'.tokens == |Holders(s'.tasks)| && s'.tokens <= s.limit.value
  {
    if !e.ParentDone? && !e.Wait? {
      MoveSize(s.tasks, HoldsSlot, e.t, Apply(s, e).tasks[e.t]);
    }
  }

  lemma EventKeepsBalance(s: State, e: Event)
    requires Balanced(s) && Enabled(s, e)
    ensures Balanced(Apply(s, e))
  {
    EventKeepsCount(s, e);
    if s.limit.Some? {
      EventKeepsTokens(s, e);
    }
  }

  lemma {:induction false} RunKeepsBalance(limit: int, es: seq<Event>)
    requires Legal(limit, es)
    ensures Balanced(After(limit, es)) && After(limit, es).limit == Init(limit).limit
    decreases |es|
  {
    if es == [] {
      assert Pending(map[]) == {} && Holders(map[]) == {};
    } else {
      RunKeepsBalance(limit, es[..|es| - 1]);
      EventKeepsBalance(After(limit, es[..|es| - 1]), es[|es| - 1]);
    }
  }

  /**
   In every run: the wait count is the waiting submitters plus the goroutines not yet done, at most
   `limit` executions of fn run at once, and the release receive never blocks.
   */
  lemma GroupAccounting(limit: int, es: seq<Event>)
    requires Legal(limit, es)
    ensures var s := After(limit, es);
            && s.count == |Pending(s.tasks)|
            && (limit > 0 ==> s.tokens == |Holders(s.tasks)| && |InsideFn(s.tasks)| <= limit)
            && (forall t :: t in s.tasks && s.tasks[t].Ending? ==> Enabled(s, Release(t)))
  {
    RunKeepsBalance(limit, es);
    var s := After(limit, es);
    SubsetSize(InsideFn(s.tasks), Holders(s.tasks));
    forall t | t in s.tasks && s.tasks[t].Ending? ensures Enabled(s, Release(t)) {
      ReleaseReady(s, t);
    }
  }

  /** Without a positive limit no submitter waits or is dropped; with one, it gets in while fewer slots are held. */
  lemma SlotFreeExactlyWhen(limit: int, es: seq<Event>, t: TaskId)
    requires Legal(limit, es) && At(After(limit, es), t, Waiting)
    ensures var s := After(limit, es);
            && (Enabled(s, Acquire(t)) <==> limit <= 0 || |Holders(s.tasks)| < limit)
            && (Enabled(s, Drop(t)) <==> limit > 0 && s.done)
  {
    RunKeepsBalance(limit, es);
  }

  lemma ReleaseReady(s: State, t: TaskId)
    requires Balanced(s) && t in s.tasks && s.tasks[t].Ending?
    ensures Enabled(s, Release(t))
  {
    SubsetSize({t}, Holders(s.tasks));
  }

  lemma {:induction false} SubsetSize(a: set<TaskId>, b: set<TaskId>)
    requires a <= b
    ensures |a| <= |b|
  {
    assert b == a + (b - a);
  }

  // ---- Results ----

  /** What the result invariant says of one task. */
  ghost predicate TaskOk(s: State, t: TaskId) {
    t in s.tasks ==>
      match s.tasks[t]
      case Dropped => s.done
      case Cancelling(error) => s.once == Busy(t) && s.err == Some(error)
      case Ending(ran) => RanOk(s, ran)
      case Released(ran) => RanOk(s, ran)
      case Finished(ran) => RanOk(s, ran)
      case _ => true
  }

  ghost predicate RanOk(s: State, ran: Ran) {
    (ran.Skipped? ==> s.done) && (ran.Errored? ==> s.err.Some?)
  }

  /** Some task failed with the recorded error. */
  ghost predicate Blamed(s: State, t: TaskId) {
    t in s.tasks && s.err.Some? &&
    match s.tasks[t]
    case Cancelling(error) => error == s.err.value
    case Ending(ran) => ran == Errored(s.err.value)
    case Released(ran) => ran == Errored(s.err.value)
    case Finished(ran) => ran == Errored(s.err.value)
    case _ => false
  }

  ghost predicate OnceOk(s: State) {
    && (s.once == Unused <==> s.err.None?)
    && (s.once == Spent ==> s.done)
    && (s.done ==> s.doneEarly || s.waited || s.once == Spent)
  }

  ghost predicate Inv(s: State) {
    && OnceOk(s)
    && (s.err.Some? ==> exists t :: Blamed(s, t))
    && (forall t {:trigger TaskOk(s, t)} :: TaskOk(s, t))
  }

  /** A task that does not move keeps what holds of it, unless the once guard moves under it. */
  lemma StillTask(s: State, s': State, t: TaskId)
    requires TaskOk(s, t) && (t in s'.tasks ==> t in s.tasks && s'.tasks[t] == s.tasks[t])
    requires (s.done ==> s'.done) && (s.err.Some? ==> s'.err == s.err)
    requires t in s.tasks && s.tasks[t].Cancelling? ==> s'.once == s.once
    ensures TaskOk(s', t)
  {
  }

  lemma RecordKeepsTask(s: State, e: Event, t: TaskId)
    requires OnceOk(s) && TaskOk(s, t) && Enabled(s, e) && e.Record?
    ensures TaskOk(Apply(s, e), t)
  {
    if t != e.t {
      StillTask(s, Apply(s, e), t);
    }
  }

  lemma CancelKeepsTask(s: State, e: Event, t: TaskId)
    requires OnceOk(s) && TaskOk(s, t) && Enabled(s, e) && e.CancelContext? && TaskOk(s, e.t)
    ensures TaskOk(Apply(s, e), t)
  {
    if t != e.t {
      StillTask(s, Apply(s, e), t);
    }
  }

  lemma OutsideKeepsTask(s: State, e: Event, t: TaskId)
    requires TaskOk(s, t) && (e.ParentDone? || e.Wait?) && Enabled(s, e)
    ensures TaskOk(Apply(s, e), t)
  {
    StillTask(s, Apply(s, e), t);
  }

  lemma SubmitterKeepsTask(s: State, e: Event, t: TaskId)
    requires TaskOk(s, t) && Enabled(s, e) && (e.Submit? || e.Acquire? || e.Drop?)
    ensures TaskOk(Apply(s, e), t)
  {
    if t != e.t {
      StillTask(s, Apply(s, e), t);
    }
  }

  lemma RunnerKeepsTask(s: State, e: Event, t: TaskId)
    requires TaskOk(s, t) && Enabled(s, e) && (e.Check? || e.Return? || e.Panic?)
    ensures TaskOk(Apply(s, e), t)
  {
    if t != e.t {
      StillTask(s, Apply(s, e), t);
    }
  }

  lemma LeaverKeepsTask(s: State, e: Event, t: TaskId)
    requires TaskOk(s, t) && Enabled(s, e) && (e.Release? || e.WgDone?)
    ensures TaskOk(Apply(s, e), t)
  {
    if t != e.t {
      StillTask(s, Apply(s, e), t);
    }
  }

  lemma EventKeepsTask(s: State, e: Event, t: TaskId)
    requires OnceOk(s) && TaskOk(s, t) && Enabled(s, e) && (e.CancelContext? ==> TaskOk(s, e.t))
    ensures TaskOk(Apply(s, e), t)
  {
    match e
    case Record(_) => RecordKeepsTask(s, e, t);
    case CancelContext(_) => CancelKeepsTask(s, e, t);
    case ParentDone | Wait => OutsideKeepsTask(s, e, t);
    case Submit(_) | Acquire(_) | Drop(_) => SubmitterKeepsTask(s, e, t);
    case Check(_) | Return(_, _) | Panic(_, _) => RunnerKeepsTask(s, e, t);
    case Release(_) | WgDone(_) => LeaverKeepsTask(s, e, t);
  }

  lemma EventKeepsOnce(s: State, e: Event)
    requires OnceOk(s) && Enabled(s, e) && (e.CancelContext? ==> TaskOk(s, e.t))
    ensures OnceOk(Apply(s, e))
  {
    match e
    case Record(_) =>
    case CancelContext(_) =>
    case Release(_) | WgDone(_) | Check(_) | Return(_, _) =>
    case _ =>
  }

  lemma EventKeepsBlame(s: State, e: Event, t: TaskId)
    requires OnceOk(s) && Enabled(s, e)
    requires Blamed(s, t) || (s.err.None? && e == Record(t))
    ensures Blamed(Apply(s, e), t)
  {
    match e
    case Record(_) =>
    case CancelContext(_) =>
    case Release(_) | WgDone(_) | Check(_) | Return(_, _) =>
    case _ =>
  }

  lemma EventKeepsInv(s: State, e: Event)
    requires Inv(s) && Enabled(s, e)
    ensures Inv(Apply(s, e))
  {
    if e.CancelContext? {
      assert TaskOk(s, e.t);
    }
    EventKeepsOnce(s, e);
    if s.err.Some? {
      var t :| Blamed(s, t);
      EventKeepsBlame(s, e, t);
    } else if e.Record? {
      EventKeepsBlame(s, e, e.t);
    }
    forall t ensures TaskOk(Apply(s, e), t) {
      assert TaskOk(s, t);
      EventKeepsTask(s, e, t);
    }
  }

  lemma {:induction false} RunKeepsInv(limit: int, es: seq<Event>)
    requires Legal(limit, es)
    ensures Inv(After(limit, es))
    decreases |es|
  {
    if es != [] {
      RunKeepsInv(limit, es[..|es| - 1]);
      EventKeepsInv(After(limit, es[..|es| - 1]), es[|es| - 1]);
    }
  }

  lemma EventKeepsOutcome(s: State, e: Event, t: TaskId)
    requires Inv(s) && Enabled(s, e)
    ensures s.err.Some? ==> Apply(s, e).err == s.err
    ensures s.done ==> Apply(s, e).done
    ensures t in s.tasks && NeverRan(s.tasks[t]) ==> t in Apply(s, e).tasks && NeverRan(Apply(s, e).tasks[t])
  {
  }

  lemma {:induction false} OutcomeStays(limit: int, es: seq<Event>, i: nat, t: TaskId)
    requires Legal(limit, es) && i <= |es| && Legal(limit, es[..i])
    ensures var then_, now := After(limit, es[..i]), After(limit, es);
            && (then_.err.Some? ==> now.err == then_.err)
            && (then_.done ==> now.done)
            && (t in then_.tasks && NeverRan(then_.tasks[t]) ==> t in now.tasks && NeverRan(now.tasks[t]))
    decreases |es|
  {
    if i == |es| {
      assert es[..i] == es;
    } else {
      var front := es[..|es| - 1];
      assert front[..i] == es[..i];
      OutcomeStays(limit, front, i, t);
      RunKeepsInv(limit, front);
      EventKeepsOutcome(After(limit, front), es[|es| - 1], t);
    }
  }

  /** The first error recorded is the result for good, and it is the error of a task that failed. */
  lemma FirstErrorWins(limit: int, es: seq<Event>, i: nat)
    requires Legal(limit, es) && i < |es| && es[i].Record?
    requires Legal(limit, es[..i]) && After(limit, es[..i]).once == Unused
    requires es[i].t in After(limit, es[..i]).tasks && After(limit, es[..i]).tasks[es[i].t].Failed?
    ensures After(limit, es).err == Some(After(limit, es[..i]).tasks[es[i].t].error)
    ensures exists t :: Blamed(After(limit, es), t)
  {
    PrefixLegal(limit, es, i);
    OutcomeStays(limit, es, i + 1, es[i].t);
    RunKeepsInv(limit, es);
  }

  /** The task has passed its context check without running fn. */
  predicate NeverRan(stage: Stage) {
    stage in {Ending(Skipped), Released(Skipped), Finished(Skipped)}
  }

  lemma DoneAfterCancel(limit: int, es: seq<Event>, i: nat)
    requires Legal(limit, es) && i < |es| && es[i].CancelContext?
    ensures After(limit, es).done
  {
    PrefixLegal(limit, es, i);
    OutcomeStays(limit, es, i + 1, 0);
  }

  lemma LateCheckSkips(limit: int, es: seq<Event>, j: nat)
    requires Legal(limit, es) && j < |es| && es[j].Check? && Legal(limit, es[..j]) && After(limit, es[..j]).done
    ensures es[j].t in After(limit, es).tasks && NeverRan(After(limit, es).tasks[es[j].t])
  {
    PrefixLegal(limit, es, j);
    OutcomeStays(limit, es, j + 1, es[j].t);
  }

  /** A task that checks its context after the cancellation never runs fn. */
  lemma NoFnAfterCancel(limit: int, es: seq<Event>, i: nat, j: nat)
    requires Legal(limit, es) && i < j < |es| && es[i].CancelContext? && es[j].Check?
    ensures es[j].t in After(limit, es).tasks && NeverRan(After(limit, es).tasks[es[j].t])
  {
    PrefixLegal(limit, es, j);
    DoneAfterCancel(limit, es[..j], i);
    LateCheckSkips(limit, es, j);
  }

  predicate EndsFn(e: Event, t: TaskId) {
    (e.Return? || e.Panic?) && e.t == t
  }

  /** The error that the end of fn gives to recordError, if any. */
  function Failure(e: Event): Option<string>
    requires e.Return? || e.Panic?
  {
    match e
    case Return(_, err) => err
    case Panic(_, message) => Some(PanicError(message))
  }

  /** Some event of the run ended an fn with this error: a return, or a panic with its message. */
  ghost predicate FailedWith(es: seq<Event>, error: string) {
    exists i :: 0 <= i < |es| && (es[i].Return? || es[i].Panic?) && Failure(es[i]) == Some(error)
  }

  /** The error that a task carries, if it failed. */
  function Carried(stage: Stage): Option<string> {
    match stage
    case Failed(error) => Some(error)
    case Cancelling(error) => Some(error)
    case Ending(Errored(error)) => Some(error)
    case Released(Errored(error)) => Some(error)
    case Finished(Errored(error)) => Some(error)
    case _ => None
  }

  lemma EventKeepsCarried(s: State, e: Event, t: TaskId)
    requires Enabled(s, e) && t in Apply(s, e).tasks && Carried(Apply(s, e).tasks[t]).Some?
    ensures (EndsFn(e, t) && Carried(Apply(s, e).tasks[t]) == Failure(e))
            || (t in s.tasks && Carried(s.tasks[t]) == Carried(Apply(s, e).tasks[t]))
  {
    match e
    case Record(_) =>
    case CancelContext(_) =>
    case Return(_, _) | Panic(_, _) =>
    case _ =>
  }

  lemma FailedWithMore(es: seq<Event>, error: string)
    requires es != [] && (FailedWith(es[..|es| - 1], error)
                          || ((es[|es| - 1].Return? || es[|es| - 1].Panic?) && Failure(es[|es| - 1]) == Some(error)))
    ensures FailedWith(es, error)
  {
    var front := es[..|es| - 1];
    if FailedWith(front, error) {
      var i :| 0 <= i < |front| && (front[i].Return? || front[i].Panic?) && Failure(front[i]) == Some(error);
      assert es[i] == front[i];
    }
  }

  lemma {:induction false} CarriedCameFromFn(limit: int, es: seq<Event>, t: TaskId)
    requires Legal(limit, es) && t in After(limit, es).tasks && Carried(After(limit, es).tasks[t]).Some?
    ensures FailedWith(es, Carried(After(limit, es).tasks[t]).value)
    decreases |es|
  {
    var front := es[..|es| - 1];
    var s := After(limit, front);
    EventKeepsCarried(s, es[|es| - 1], t);
    if t in s.tasks && Carried(s.tasks[t]) == Carried(After(limit, es).tasks[t]) {
      CarriedCameFromFn(limit, front, t);
    }
    FailedWithMore(es, Carried(After(limit, es).tasks[t]).value);
  }

  /** The recorded error is one that a submitted fn returned, or the message of one that panicked. */
  lemma ErrorCameFromFn(limit: int, es: seq<Event>)
    requires Legal(limit, es) && After(limit, es).err.Some?
    ensures FailedWith(es, After(limit, es).err.value)
  {
    RunKeepsInv(limit, es);
    var t :| Blamed(After(limit, es), t);
    CarriedCameFromFn(limit, es, t);
  }

  /** Spelled out: it is the error of some return, or it names the value of some panic. */
  lemma ErrorNamesItsCause(limit: int, es: seq<Event>) returns (i: nat)
    requires Legal(limit, es) && After(limit, es).err.Some?
    ensures i < |es| && (es[i].Return? || es[i].Panic?)
    ensures es[i].Return? ==> After(limit, es).err == es[i].err
    ensures es[i].Panic? ==> After(limit, es).err == Some("routine.Group: panic recovered: " + es[i].message)
  {
    ErrorCameFromFn(limit, es);
    i :| 0 <= i < |es| && (es[i].Return? || es[i].Panic?) && Failure(es[i]) == After(limit, es).err;
  }

  /** If Wait would return nil and the context did not end early, every submitted fn ran and returned nil. */
  lemma NilMeansAllSucceeded(limit: int, es: seq<Event>)
    requires Legal(limit, es) && Enabled(After(limit, es), Wait)
    requires After(limit, es).err.None? && !After(limit, es).doneEarly
    ensures forall t :: t in After(limit, es).tasks ==> After(limit, es).tasks[t] == Finished(Succeeded)
  {
    RunKeepsInv(limit, es);
    RunKeepsBalance(limit, es);
    var s := After(limit, es);
    forall t | t in s.tasks ensures s.tasks[t] == Finished(Succeeded) {
      assert TaskOk(s, t);
      assert t !in Pending(s.tasks);
    }
  }

  /** And Wait returns an error exactly when some task failed: returned an error or panicked. */
  lemma ErrorMeansSomeFailed(limit: int, es: seq<Event>)
    requires Legal(limit, es) && Enabled(After(limit, es), Wait)
    ensures After(limit, es).err.Some?
            <==> exists t :: t in After(limit, es).tasks && After(limit, es).tasks[t].Finished?
                             && After(limit, es).tasks[t].ran.Errored?
  {
    RunKeepsInv(limit, es);
    RunKeepsBalance(limit, es);
    var s := After(limit, es);
    if s.err.Some? {
      var t :| Blamed(s, t);
      assert t !in Pending(s.tasks);
      assert s.tasks[t].Finished? && s.tasks[t].ran.Errored?;
    }
    forall t | t in s.tasks && s.tasks[t].Finished? && s.tasks[t].ran.Errored? ensures s.err.Some? {
      assert TaskOk(s, t);
    }
  }

  /** The event ends the group's context. */
  predicate EndsContext(e: Event) {
    e == ParentDone || e == Wait || e.CancelContext?
  }

  ghost predicate ContextEnded(es: seq<Event>) {
    exists k :: 0 <= k < |es| && EndsContext(es[k])
  }

  lemma ContextEndedMore(es: seq<Event>, e: Event)
    ensures ContextEnded(es + [e]) <==> ContextEnded(es) || EndsContext(e)
  {
    assert (es + [e])[|es|] == e;
    if ContextEnded(es) {
      var k :| 0 <= k < |es| && EndsContext(es[k]);
      assert EndsContext((es + [e])[k]);
    }
  }

  lemma ContextEndedNext(s: State, e: Event)
    requires Enabled(s, e)
    ensures Apply(s, e).done <==> s.done || EndsContext(e)
  {
  }

  /** The context has ended exactly after its parent or timeout ended it, an error cancelled it, or Wait did. */
  lemma {:induction false} ContextEndedExactlyWhen(limit: int, es: seq<Event>)
    requires Legal(limit, es)
    ensures After(limit, es).done <==> ContextEnded(es)
    decreases |es|
  {
    if es != [] {
      var front, last := es[..|es| - 1], es[|es| - 1];
      ContextEndedExactlyWhen(limit, front);
      ContextEndedNext(After(limit, front), last);
      ContextEndedMore(front, last);
      assert es == front + [last];
    }
  }

  /** The context counts as ended early only if its parent or the timeout did end it. */
  lemma {:induction false} EarlyEndHasCause(limit: int, es: seq<Event>)
    requires Legal(limit, es) && After(limit, es).doneEarly
    ensures ParentDone in es
    decreases |es|
  {
    if es != [] && es[|es| - 1] != ParentDone {
      EarlyEndHasCause(limit, es[..|es| - 1]);
    }
  }

  lemma OneMore(limit: int, es: seq<Event>, e: Event)
    requires Legal(limit, es) && Enabled(After(limit, es), e)
    ensures Legal(limit, es + [e]) && After(limit, es + [e]) == Apply(After(limit, es), e)
  {
    assert (es + [e])[..|es|] == es;
  }

  /** When the context ends early, a submitted fn may never run although Wait returns nil: nobody learns of it. */
  lemma EarlyEndSkipsSilently(limit: int) returns (es: seq<Event>)
    ensures Legal(limit, es) && Enabled(After(limit, es), Wait) && After(limit, es).err.None?
    ensures At(After(limit, es), 0, Finished(Skipped))
  {
    es := [];
    OneMore(limit, es, Submit(0));  es := es + [Submit(0)];
    OneMore(limit, es, Acquire(0)); es := es + [Acquire(0)];
    OneMore(limit, es, ParentDone); es := es + [ParentDone];
    OneMore(limit, es, Check(0));   es := es + [Check(0)];
    OneMore(limit, es, Release(0)); es := es + [Release(0)];
    OneMore(limit, es, WgDone(0));  es := es + [WgDone(0)];
  }

  /** And whenever Wait returns nil, each task either succeeded or was left out in silence. */
  lemma NilMeansNoneFailed(limit: int, es: seq<Event>, t: TaskId)
    requires Legal(limit, es) && Enabled(After(limit, es), Wait) && After(limit, es).err.None?
    requires t in After(limit, es).tasks
    ensures After(limit, es).tasks[t] in {Finished(Succeeded), Finished(Skipped), Dropped}
    ensures After(limit, es).tasks[t] != Finished(Succeeded) ==> After(limit, es).doneEarly
  {
    RunKeepsInv(limit, es);
    RunKeepsBalance(limit, es);
    var s := After(limit, es);
    assert TaskOk(s, t) && t !in Pending(s.tasks);
  }

  // ---- Progress ----

  /** The steps that are ahead of a task, at most. */
  function Weight(stage: Stage): nat {
    match stage
    case Waiting => 7
    case Spawned => 6
    case InFn => 5
    case Failed(_) => 4
    case Cancelling(_) => 3
    case Ending(_) => 2
    case Released(_) => 1
    case Dropped | Finished(_) => 0
  }

  function Weighs(k: nat): Stage -> bool {
    (stage: Stage) => Weight(stage) >= k
  }

  /** All of them together: the sizes of the sets of tasks with at least k steps ahead. */
  function Work(tasks: map<TaskId, Stage>): nat {
    |Those(tasks, Weighs(1))| + |Those(tasks, Weighs(2))| + |Those(tasks, Weighs(3))| + |Those(tasks, Weighs(4))|
    + |Those(tasks, Weighs(5))| + |Those(tasks, Weighs(6))| + |Those(tasks, Weighs(7))|
  }

  lemma MoveWork(tasks: map<TaskId, Stage>, t: TaskId, stage: Stage)
    ensures Work(tasks[t := stage]) == Work(tasks) - (if t in tasks then Weight(tasks[t]) else 0) + Weight(stage)
  {
    MoveSize(tasks, Weighs(1), t, stage);
    MoveSize(tasks, Weighs(2), t, stage);
    MoveSize(tasks, Weighs(3), t, stage);
    MoveSize(tasks, Weighs(4), t, stage);
    MoveSize(tasks, Weighs(5), t, stage);
    MoveSize(tasks, Weighs(6), t, stage);
    MoveSize(tasks, Weighs(7), t, stage);
  }

  /** A step of a submitter at the semaphore or of a goroutine. */
  predicate TaskEvent(e: Event) {
    !e.Submit? && !e.ParentDone? && !e.Wait?
  }

  lemma WeightFalls(s: State, e: Event)
    requires Enabled(s, e) && TaskEvent(e)
    ensures e.t in s.tasks && e.t in Apply(s, e).tasks
    ensures Weight(Apply(s, e).tasks[e.t]) < Weight(s.tasks[e.t])
  {
  }

  lemma OnlyOneMoves(s: State, e: Event)
    requires Enabled(s, e)
    ensures if e.ParentDone? || e.Wait? then Apply(s, e).tasks == s.tasks
            else e.t in Apply(s, e).tasks && Apply(s, e).tasks == s.tasks[e.t := Apply(s, e).tasks[e.t]]
  {
  }

  /** Each such step lowers the work; only Submit adds some. */
  lemma TaskEventsShrinkWork(s: State, e: Event)
    requires Enabled(s, e)
    ensures if TaskEvent(e) then Work(Apply(s, e).tasks) < Work(s.tasks)
            else Work(Apply(s, e).tasks) == Work(s.tasks) + if e.Submit? then 7 else 0
  {
    OnlyOneMoves(s, e);
    if TaskEvent(e) {
      WeightFalls(s, e);
      MoveWork(s.tasks, e.t, Apply(s, e).tasks[e.t]);
    } else if e.Submit? {
      MoveWork(s.tasks, e.t, Waiting);
    }
  }

  /** Whoever is inside errOnce.Do is about to cancel the context. */
  ghost predicate HolderCancels(s: State) {
    s.once.Busy? ==> s.once.holder in s.tasks && s.tasks[s.once.holder].Cancelling?
  }

  lemma EventKeepsHolder(s: State, e: Event)
    requires HolderCancels(s) && Enabled(s, e)
    ensures HolderCancels(Apply(s, e))
  {
    OnlyOneMoves(s, e);
  }

  lemma {:induction false} RunKeepsHolder(limit: int, es: seq<Event>)
    requires Legal(limit, es)
    ensures HolderCancels(After(limit, es))
    decreases |es|
  {
    if es != [] {
      RunKeepsHolder(limit, es[..|es| - 1]);
      EventKeepsHolder(After(limit, es[..|es| - 1]), es[|es| - 1]);
    }
  }

  /** The next step of a task that is not kept waiting. */
  function NextStep(s: State, t: TaskId): Event
    requires t in s.tasks
  {
    match s.tasks[t]
    case Waiting => Acquire(t)
    case Spawned => Check(t)
    case InFn => Return(t, None)
    case Failed(_) => if s.once.Busy? then CancelContext(s.once.holder) else Record(t)
    case Cancelling(_) => CancelContext(t)
    case Ending(_) => Release(t)
    case _ => WgDone(t)
  }

  lemma StepReady(s: State, t: TaskId)
    requires Balanced(s) && HolderCancels(s) && t in Pending(s.tasks)
    requires s.tasks[t].Waiting? && s.limit.Some? ==> s.tokens < s.limit.value
    ensures TaskEvent(NextStep(s, t)) && Enabled(s, NextStep(s, t))
  {
    if s.tasks[t].Ending? {
      ReleaseReady(s, t);
    }
  }

  /** As long as the wait count is positive, some submitter or goroutine can move; at zero, Wait can return. */
  lemma GroupNeverStuck(limit: int, es: seq<Event>)
    requires Legal(limit, es)
    ensures var s := After(limit, es);
            if s.count == 0 then !s.waited ==> Enabled(s, Wait)
            else exists e :: TaskEvent(e) && Enabled(s, e)
  {
    RunKeepsBalance(limit, es);
    RunKeepsHolder(limit, es);
    var s := After(limit, es);
    if s.count != 0 {
      var t: TaskId :| t in Pending(s.tasks);
      if s.tasks[t].Waiting? && s.limit.Some? && s.tokens == s.limit.value {
        t :| t in Holders(s.tasks);
      }
      StepReady(s, t);
    }
  }

  function TaskEvents(es: seq<Event>): nat {
    if es == [] then 0 else TaskEvents(es[..|es| - 1]) + if TaskEvent(es[|es| - 1]) then 1 else 0
  }

  function Submits(es: seq<Event>): nat {
    if es == [] then 0 else Submits(es[..|es| - 1]) + if es[|es| - 1].Submit? then 1 else 0
  }

  /** However the run goes on, its task events are at most the work at hand and seven for each new submission. */
  lemma {:induction false} GroupStepBound(limit: int, es: seq<Event>, more: seq<Event>)
    requires Legal(limit, es) && Legal(limit, es + more)
    ensures TaskEvents(more) + Work(After(limit, es + more).tasks)
            <= Work(After(limit, es).tasks) + 7 * Submits(more)
    decreases |more|
  {
    if more == [] {
      assert es + more == es;
    } else {
      var front := more[..|more| - 1];
      assert (es + more)[..|es + more| - 1] == es + front;
      GroupStepBound(limit, es, front);
      TaskEventsShrinkWork(After(limit, es + front), more[|more| - 1]);
    }
  }

  // ---- The source's object ----

  function RanWith(failure: Option<string>): Ran {
    if failure.Some? then Errored(failure.value) else Succeeded
  }

  class Group {
    const limit: Option<nat>
    var done: bool
    var tokens: int
    var count: int
    var err: Option<string>
    var once: Once
    var tasks: map<TaskId, Stage>
    var waited: bool
    ghost var doneEarly: bool

    ghost function Snapshot(): State
      reads this
    {
      State(limit, done, tokens, count, err, once, tasks, waited, doneEarly)
    }

    ghost predicate Valid()
      reads this
    {
      Balanced(Snapshot()) && Inv(Snapshot())
    }

    constructor (limit: int)
      ensures Snapshot() == Init(limit) && Valid()
    {
      this.limit := if limit > 0 then Some(limit) else None;
      done, tokens, count, err, once := false, 0, 0, None, Unused;
      tasks, waited, doneEarly := map[], false, false;
      new;
      RunKeepsBalance(limit, []);
      RunKeepsInv(limit, []);
    }

    /** Submit up to its select: wg.Add(1). */
    method EnterSubmit(t: TaskId)
      requires Valid() && Enabled(Snapshot(), Submit(t))
      modifies this`tasks, this`count
      ensures Valid() && Snapshot() == Apply(old(Snapshot()), Submit(t))
    {
      EventKeepsBalance(Snapshot(), Submit(t));
      EventKeepsInv(Snapshot(), Submit(t));
      tasks, count := tasks[t := Waiting], count + 1;
    }

    /** Submit's select; `takeSlot` is Go's choice when both cases are ready. */
    method SelectSlot(t: TaskId, takeSlot: bool) returns (spawned: bool)
      requires Valid() && if takeSlot then Enabled(Snapshot(), Acquire(t)) else Enabled(Snapshot(), Drop(t))
      modifies this`tasks, this`count, this`tokens
      ensures Valid() && spawned == takeSlot
      ensures Snapshot() == Apply(old(Snapshot()), if takeSlot then Acquire(t) else Drop(t))
    {
      EventKeepsBalance(Snapshot(), if takeSlot then Acquire(t) else Drop(t));
      EventKeepsInv(Snapshot(), if takeSlot then Acquire(t) else Drop(t));
      if limit.Some? {
        if takeSlot {
          tokens := tokens + 1;
        } else {
          count, tasks := count - 1, tasks[t := Dropped];
          return false;
        }
      }
      tasks := tasks[t := Spawned];
      return true;
    }

    /** recordError up to the cancel: only the first caller of errOnce.Do stores its error. */
    method RecordError(t: TaskId)
      requires Valid() && Enabled(Snapshot(), Record(t))
      modifies this`tasks, this`err, this`once
      ensures Valid() && Snapshot() == Apply(old(Snapshot()), Record(t))
    {
      EventKeepsBalance(Snapshot(), Record(t));
      EventKeepsInv(Snapshot(), Record(t));
      var error := tasks[t].error;
      if once == Unused {
        err, once, tasks := Some(error), Busy(t), tasks[t := Cancelling(error)];
      } else {
        tasks := tasks[t := Ending(Errored(error))];
      }
    }

    method CancelAfterError(t: TaskId)
      requires Valid() && Enabled(Snapshot(), CancelContext(t))
      modifies this`tasks, this`done, this`once
      ensures Valid() && Snapshot() == Apply(old(Snapshot()), CancelContext(t))
    {
      EventKeepsBalance(Snapshot(), CancelContext(t));
      EventKeepsInv(Snapshot(), CancelContext(t));
      done, once, tasks := true, Spent, tasks[t := Ending(Errored(tasks[t].error))];
    }

    /** The deferred receive from the semaphore. */
    method ReleaseSlot(t: TaskId)
      requires Valid() && Enabled(Snapshot(), Release(t))
      modifies this`tasks, this`tokens
      ensures Valid() && Snapshot() == Apply(old(Snapshot()), Release(t))
    {
      EventKeepsBalance(Snapshot(), Release(t));
      EventKeepsInv(Snapshot(), Release(t));
      if limit.Some? {
        tokens := tokens - 1;
      }
      tasks := tasks[t := Released(tasks[t].ran)];
    }

    method CallDone(t: TaskId)
      requires Valid() && Enabled(Snapshot(), WgDone(t))
      modifies this`tasks, this`count
      ensures Valid() && Snapshot() == Apply(old(Snapshot()), WgDone(t))
    {
      EventKeepsBalance(Snapshot(), WgDone(t));
      EventKeepsInv(Snapshot(), WgDone(t));
      count, tasks := count - 1, tasks[t := Finished(tasks[t].ran)];
    }

    /** recordError in full, without interference. */
    method RecordAndCancel(t: TaskId)
      requires Valid() && t in tasks && tasks[t].Failed? && !once.Busy?
      modifies this`tasks, this`done, this`err, this`once
      ensures Valid()
      ensures tasks == old(tasks)[t := Ending(Errored(old(tasks[t].error)))]
      ensures err == (if old(err).None? then Some(old(tasks[t].error)) else old(err))
      ensures done == (old(done) || old(err).None?) && !once.Busy?
    {
      RecordError(t);
      if tasks[t].Cancelling? {
        CancelAfterError(t);
      }
    }

    /** fn returns or panics. */
    method EndFn(t: TaskId, end: Event)
      requires Valid() && At(Snapshot(), t, InFn) && EndsFn(end, t)
      modifies this`tasks
      ensures Valid() && Snapshot() == Apply(old(Snapshot()), end)
    {
      EventKeepsBalance(Snapshot(), end);
      EventKeepsInv(Snapshot(), end);
      match end {
        case Return(_, None) => tasks := tasks[t := Ending(Succeeded)];
        case Return(_, Some(error)) => tasks := tasks[t := Failed(error)];
        case Panic(_, message) => tasks := tasks[t := Failed(PanicError(message))];
      }
    }

    /** fn of one task whose check passed, and its recordError, without interference. */
    method RunFn(t: TaskId, end: Event)
      requires Valid() && At(Snapshot(), t, InFn) && !once.Busy? && EndsFn(end, t)
      modifies this`tasks, this`done, this`err, this`once
      ensures Valid()
      ensures tasks == old(tasks)[t := Ending(RanWith(Failure(end)))]
      ensures err == (if old(err).None? then Failure(end) else old(err))
      ensures done == (old(done) || (Failure(end).Some? && old(err).None?))
    {
      EndFn(t, end);
      if Failure(end).Some? {
        RecordAndCancel(t);
      }
    }

    /** The goroutine's body without interference: context check, fn, recordError. */
    method CheckAndRun(t: TaskId, end: Event)
      requires Valid() && At(Snapshot(), t, Spawned) && !once.Busy? && EndsFn(end, t)
      modifies this`tasks, this`done, this`err, this`once
      ensures Valid()
      ensures tasks == old(tasks)[t := Ending(if old(done) then Skipped else RanWith(Failure(end)))]
      ensures err == (if !old(done) && old(err).None? then Failure(end) else old(err))
      ensures done == (old(done) || (Failure(end).Some? && old(err).None?))
    {
      EventKeepsBalance(Snapshot(), Check(t));
      EventKeepsInv(Snapshot(), Check(t));
      if done {
        tasks := tasks[t := Ending(Skipped)];
      } else {
        tasks := tasks[t := InFn];
        RunFn(t, end);
      }
    }

    /** The deferred part without interference: the slot goes back, then the task is done. */
    method Leave(t: TaskId)
      requires Valid() && t in tasks && tasks[t].Ending?
      modifies this`tasks, this`tokens, this`count
      ensures Valid() && tasks == old(tasks)[t := Finished(old(tasks[t].ran))]
      ensures count == old(count) - 1 && tokens == old(tokens) - if limit.Some? then 1 else 0
    {
      ReleaseReady(Snapshot(), t);
      ReleaseSlot(t);
      CallDone(t);
    }

    /** Wait, once the count is zero. */
    method WaitForAll() returns (result: Option<string>)
      requires Valid() && Enabled(Snapshot(), Event.Wait)
      modifies this`done, this`waited
      ensures Valid() && Snapshot() == Apply(old(Snapshot()), Event.Wait) && result == err
    {
      EventKeepsBalance(Snapshot(), Event.Wait);
      EventKeepsInv(Snapshot(), Event.Wait);
      done, waited := true, true;
      return err;
    }
  }
}
