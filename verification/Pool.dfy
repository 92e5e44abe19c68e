/**
 The bounded worker pool of pkg/routine/pool.go.

 The atomic events are the channel operations, the load and store of `closed`, a task's end and
 a worker's exit; a run is any sequence of enabled events over any submitters, under either
 strategy.  A submission is named by its identity, so "the task of submission i" and "i" are the
 same.  History beside the source's fields: the sequences accepted, started and finished.
 */
module PoolModel {
  type TaskId = nat
  type WorkerId = nat

  /** Any strategy other than Discard behaves as Block (the switch's default). */
  datatype Strategy = Block | Discard

  datatype PoolOption = WithQueueSize(size: int) | WithStrategy(strategy: Strategy)

  datatype Config = Config(workerCount: int, queueSize: int, strategy: Strategy)

  datatype Worker = Idle | Busy(task: TaskId) | Exited

  datatype Refusal = PoolClosed | ContextDone | QueueFull

  /** Entered: before the closed check.  Open: past it.  AtSend: past the context check. */
  datatype Submission = Entered | Open | AtSend | Accepted | Refused(why: Refusal) | Panicked

  datatype State = State(
    cfg: Config, tasks: seq<TaskId>, workers: seq<Worker>, closed: bool, chanClosed: bool,
    submissions: map<TaskId, Submission>, accepted: seq<TaskId>, started: seq<TaskId>, finished: seq<TaskId>,
    stopReturned: bool)

  datatype Event =
    | Enter(i: TaskId)
    | CheckClosed(i: TaskId)
    | CheckContext(i: TaskId, done: bool)
    | Send(i: TaskId)
    | ContextEnds(i: TaskId)
    | Take(w: WorkerId)
    | Finish(w: WorkerId, panicked: bool)
    | Exit(w: WorkerId)
    | SetClosed
    | CloseChannel
    | StopReturns

  // ---- Configuration ----

  function ApplyOption(cfg: Config, opt: PoolOption): Config {
    match opt
    case WithQueueSize(size) => if size > 0 then cfg.(queueSize := size) else cfg
    case WithStrategy(strategy) => cfg.(strategy := strategy)
  }

  function Configure(workerCount: int, opts: seq<PoolOption>): (cfg: Config)
    ensures cfg.workerCount >= 1 && cfg.queueSize >= 1
    ensures workerCount >= 1 ==> cfg.workerCount == workerCount
  {
    if opts == [] then Config(if workerCount <= 0 then 1 else workerCount, 100, Block)
    else ApplyOption(Configure(workerCount, opts[..|opts| - 1]), opts[|opts| - 1])
  }

  /** No option from position k on sets the strategy. */
  predicate StrategyStays(opts: seq<PoolOption>, k: nat) {
    forall j :: k <= j < |opts| ==> !opts[j].WithStrategy?
  }

  /** No option from position k on sets a positive queue size. */
  predicate SizeStays(opts: seq<PoolOption>, k: nat) {
    forall j :: k <= j < |opts| && opts[j].WithQueueSize? ==> opts[j].size <= 0
  }

  /** The last strategy and the last positive queue size are in force, or the documented defaults. */
  lemma {:induction false} ConfiguredPool(workerCount: int, opts: seq<PoolOption>)
    ensures Configure(workerCount, opts).workerCount == if workerCount <= 0 then 1 else workerCount
    ensures StrategyStays(opts, 0) ==> Configure(workerCount, opts).strategy == Block
    ensures forall i :: 0 <= i < |opts| && opts[i].WithStrategy? && StrategyStays(opts, i + 1) ==>
              Configure(workerCount, opts).strategy == opts[i].strategy
    ensures SizeStays(opts, 0) ==> Configure(workerCount, opts).queueSize == 100
    ensures forall i :: 0 <= i < |opts| && opts[i].WithQueueSize? && opts[i].size > 0 && SizeStays(opts, i + 1) ==>
              Configure(workerCount, opts).queueSize == opts[i].size
  {
    if opts != [] {
      var front := opts[..|opts| - 1];
      ConfiguredPool(workerCount, front);
      forall i | 0 <= i < |opts| && opts[i].WithStrategy? && StrategyStays(opts, i + 1)
        ensures Configure(workerCount, opts).strategy == opts[i].strategy
      {
        if i < |front| {
          assert front[i] == opts[i] && StrategyStays(front, i + 1);
        }
      }
      forall i | 0 <= i < |opts| && opts[i].WithQueueSize? && opts[i].size > 0 && SizeStays(opts, i + 1)
        ensures Configure(workerCount, opts).queueSize == opts[i].size
      {
        if i < |front| {
          assert front[i] == opts[i] && SizeStays(front, i + 1);
        }
      }
    }
  }

  predicate ValidConfig(cfg: Config) {
    cfg.workerCount >= 1 && cfg.queueSize >= 1
  }

  function Init(cfg: Config): State
    requires ValidConfig(cfg)
  {
    State(cfg, [], seq(cfg.workerCount, _ => Idle), false, false, map[], [], [], [], false)
  }

  // ---- Events ----

  predicate At(s: State, i: TaskId, stage: Submission) {
    i in s.submissions && s.submissions[i] == stage
  }

  predicate AllExited(workers: seq<Worker>) {
    forall w :: 0 <= w < |workers| ==> workers[w] == Exited
  }

  predicate Enabled(s: State, e: Event) {
    match e
    case Enter(i) => i !in s.submissions
    case CheckClosed(i) => At(s, i, Entered)
    case CheckContext(i, _) => At(s, i, Open)
    case Send(i) => At(s, i, AtSend) && (s.chanClosed || |s.tasks| < s.cfg.queueSize || s.cfg.strategy == Discard)
    case ContextEnds(i) => At(s, i, AtSend) && s.cfg.strategy == Block
    case Take(w) => w < |s.workers| && s.workers[w] == Idle && s.tasks != []
    case Finish(w, _) => w < |s.workers| && s.workers[w].Busy?
    case Exit(w) => w < |s.workers| && s.workers[w] == Idle && s.tasks == [] && s.chanClosed
    case SetClosed => !s.closed
    case CloseChannel => s.closed && !s.chanClosed
    case StopReturns => s.chanClosed && AllExited(s.workers)
  }

  predicate WorkerEvent(e: Event) {
    e.Take? || e.Finish? || e.Exit?
  }

  function Apply(s: State, e: Event): State
    requires Enabled(s, e)
  {
    match e
    case Enter(i) => s.(submissions := s.submissions[i := Entered])
    case CheckClosed(i) => s.(submissions := s.submissions[i := if s.closed then Refused(PoolClosed) else Open])
    case CheckContext(i, done) => s.(submissions := s.submissions[i := if done then Refused(ContextDone) else AtSend])
    case Send(i) =>
      if s.chanClosed then s.(submissions := s.submissions[i := Panicked])
      else if |s.tasks| < s.cfg.queueSize then
        s.(submissions := s.submissions[i := Accepted], tasks := s.tasks + [i], accepted := s.accepted + [i])
      else s.(submissions := s.submissions[i := Refused(QueueFull)])
    case ContextEnds(i) => s.(submissions := s.submissions[i := Refused(ContextDone)])
    case Take(w) =>
      s.(workers := s.workers[w := Busy(s.tasks[0])], tasks := s.tasks[1..], started := s.started + [s.tasks[0]])
    case Finish(w, _) => s.(workers := s.workers[w := Idle], finished := s.finished + [s.workers[w].task])
    case Exit(w) => s.(workers := s.workers[w := Exited])
    case SetClosed => s.(closed := true)
    case CloseChannel => s.(chanClosed := true)
    case StopReturns => s.(stopReturned := true)
  }

  // ---- Runs ----

  ghost predicate Legal(cfg: Config, es: seq<Event>)
    requires ValidConfig(cfg)
    decreases |es|, 0
  {
    es == [] || (Legal(cfg, es[..|es| - 1]) && Enabled(After(cfg, es[..|es| - 1]), es[|es| - 1]))
  }

  ghost function After(cfg: Config, es: seq<Event>): State
    requires ValidConfig(cfg) && Legal(cfg, es)
    decreases |es|, 1
  {
    if es == [] then Init(cfg) else Apply(After(cfg, es[..|es| - 1]), es[|es| - 1])
  }

  lemma OneMore(cfg: Config, es: seq<Event>, e: Event)
    requires ValidConfig(cfg) && Legal(cfg, es) && Enabled(After(cfg, es), e)
    ensures Legal(cfg, es + [e]) && After(cfg, es + [e]) == Apply(After(cfg, es), e)
  {
    assert (es + [e])[..|es|] == es;
  }

  lemma {:induction false} PrefixLegal(cfg: Config, es: seq<Event>, i: nat)
    requires ValidConfig(cfg) && Legal(cfg, es) && i <= |es|
    ensures Legal(cfg, es[..i])
    ensures i < |es| ==> Legal(cfg, es[..i + 1]) && Enabled(After(cfg, es[..i]), es[i])
                         && After(cfg, es[..i + 1]) == Apply(After(cfg, es[..i]), es[i])
    decreases |es|
  {
    assert es[..|es|] == es;
    if i < |es| - 1 {
      var front := es[..|es| - 1];
      assert front[..i] == es[..i] && front[..i + 1] == es[..i + 1];
      PrefixLegal(cfg, front, i);
    }
  }

  // ---- The invariant ----

  /** How many workers are executing task i right now. */
  function Running(workers: seq<Worker>, i: TaskId): nat {
    if workers == [] then 0 else Running(workers[1..], i) + if workers[0] == Busy(i) then 1 else 0
  }

  lemma {:induction false} RunningUpdate(workers: seq<Worker>, w: nat, worker: Worker, i: TaskId)
    requires w < |workers|
    ensures Running(workers[w := worker], i)
            == Running(workers, i) - (if workers[w] == Busy(i) then 1 else 0) + (if worker == Busy(i) then 1 else 0)
  {
    if w == 0 {
      assert workers[w := worker][1..] == workers[1..];
    } else {
      RunningUpdate(workers[1..], w - 1, worker, i);
      assert workers[w := worker][1..] == workers[1..][w - 1 := worker];
    }
  }

  lemma {:induction false} NobodyRunning(workers: seq<Worker>, i: TaskId)
    requires forall w :: 0 <= w < |workers| ==> !workers[w].Busy?
    ensures Running(workers, i) == 0
  {
    if workers != [] {
      NobodyRunning(workers[1..], i);
    }
  }

  /** Task i was accepted once if at all, and every start of it is finished or still running. */
  ghost predicate TaskOk(s: State, i: TaskId) {
    && multiset(s.accepted)[i] == (if At(s, i, Accepted) then 1 else 0)
    && multiset(s.started)[i] == multiset(s.finished)[i] + Running(s.workers, i)
  }

  ghost predicate Inv(s: State) {
    && ValidConfig(s.cfg) && |s.workers| == s.cfg.workerCount
    && s.accepted == s.started + s.tasks
    && |s.tasks| <= s.cfg.queueSize
    && (s.chanClosed ==> s.closed)
    && (forall w :: 0 <= w < |s.workers| && s.workers[w] == Exited ==> s.chanClosed && s.tasks == [])
    && (s.stopReturned ==> s.chanClosed && AllExited(s.workers))
    && (forall i {:trigger TaskOk(s, i)} :: TaskOk(s, i))
  }

  lemma CountMore(tasks: seq<TaskId>, task: TaskId, i: TaskId)
    ensures multiset(tasks + [task])[i] == multiset(tasks)[i] + if task == i then 1 else 0
  {
  }

  lemma WorkerKeepsTasks(s: State, e: Event, i: TaskId)
    requires TaskOk(s, i) && Enabled(s, e) && WorkerEvent(e)
    ensures TaskOk(Apply(s, e), i)
  {
    RunningUpdate(s.workers, e.w, Apply(s, e).workers[e.w], i);
    if e.Take? {
      CountMore(s.started, s.tasks[0], i);
    } else if e.Finish? {
      CountMore(s.finished, s.workers[e.w].task, i);
    }
  }

  lemma SendKeepsTasks(s: State, j: TaskId, i: TaskId)
    requires TaskOk(s, i) && Enabled(s, Send(j))
    ensures TaskOk(Apply(s, Send(j)), i)
  {
    CountMore(s.accepted, j, i);
  }

  lemma EventKeepsTasks(s: State, e: Event, i: TaskId)
    requires TaskOk(s, i) && Enabled(s, e)
    ensures TaskOk(Apply(s, e), i)
  {
    if WorkerEvent(e) {
      WorkerKeepsTasks(s, e, i);
    } else if e.Send? {
      SendKeepsTasks(s, e.i, i);
    }
  }

  lemma EventKeepsInv(s: State, e: Event)
    requires Inv(s) && Enabled(s, e)
    ensures Inv(Apply(s, e))
  {
    if e.Take? {
      assert s.tasks == [s.tasks[0]] + s.tasks[1..];
    }
    forall i ensures TaskOk(Apply(s, e), i) {
      assert TaskOk(s, i);
      EventKeepsTasks(s, e, i);
    }
  }

  lemma {:induction false} RunKeepsInv(cfg: Config, es: seq<Event>)
    requires ValidConfig(cfg) && Legal(cfg, es)
    ensures Inv(After(cfg, es)) && After(cfg, es).cfg == cfg
    decreases |es|
  {
    if es == [] {
      forall i ensures TaskOk(Init(cfg), i) {
        NobodyRunning(Init(cfg).workers, i);
      }
    } else {
      RunKeepsInv(cfg, es[..|es| - 1]);
      EventKeepsInv(After(cfg, es[..|es| - 1]), es[|es| - 1]);
    }
  }

  // ---- Conservation and drain ----

  /** Tasks start in acceptance order, none is lost or duplicated, and both bounds hold, in every run. */
  lemma Conservation(cfg: Config, es: seq<Event>)
    requires ValidConfig(cfg) && Legal(cfg, es)
    ensures var s := After(cfg, es);
            && s.accepted == s.started + s.tasks
            && |s.tasks| <= cfg.queueSize && |s.workers| == cfg.workerCount
            && (forall i ::
                  multiset(s.finished)[i] + Running(s.workers, i) + multiset(s.tasks)[i]
                  == if At(s, i, Accepted) then 1 else 0)
  {
    RunKeepsInv(cfg, es);
    var s := After(cfg, es);
    forall i ensures multiset(s.finished)[i] + Running(s.workers, i) + multiset(s.tasks)[i]
                  == if At(s, i, Accepted) then 1 else 0
    {
      assert TaskOk(s, i);
    }
  }

  lemma ExitedMeansDrained(s: State)
    requires Inv(s) && AllExited(s.workers)
    ensures s.tasks == []
    ensures forall i :: multiset(s.finished)[i] == multiset(s.accepted)[i] == if At(s, i, Accepted) then 1 else 0
  {
    var first := s.workers[0];
    forall i ensures multiset(s.finished)[i] == multiset(s.accepted)[i] == if At(s, i, Accepted) then 1 else 0 {
      assert TaskOk(s, i);
      NobodyRunning(s.workers, i);
    }
  }

  /** Once Stop has returned, every accepted task has finished exactly once, and nothing else has. */
  lemma StopDrains(cfg: Config, es: seq<Event>)
    requires ValidConfig(cfg) && Legal(cfg, es) && After(cfg, es).stopReturned
    ensures var s := After(cfg, es);
            && s.tasks == []
            && (forall i :: multiset(s.finished)[i] == if At(s, i, Accepted) then 1 else 0)
  {
    RunKeepsInv(cfg, es);
    ExitedMeansDrained(After(cfg, es));
  }

  /** What is left to do after the close: each queued task needs a take, an end, and every live worker an exit. */
  function Work(s: State): nat {
    3 * |s.tasks| + Weight(s.workers)
  }

  function Weight(workers: seq<Worker>): nat {
    if workers == [] then 0
    else Weight(workers[1..]) + (match workers[0] case Exited => 0 case Idle => 1 case Busy(_) => 3)
  }

  lemma {:induction false} WeightUpdate(workers: seq<Worker>, w: nat, worker: Worker)
    requires w < |workers|
    ensures Weight(workers[w := worker]) == Weight(workers) - Weight([workers[w]]) + Weight([worker])
  {
    if w == 0 {
      assert workers[w := worker][1..] == workers[1..];
    } else {
      WeightUpdate(workers[1..], w - 1, worker);
      assert workers[w := worker][1..] == workers[1..][w - 1 := worker];
    }
  }

  lemma {:induction false} NoWeightMeansExited(workers: seq<Worker>)
    ensures Weight(workers) == 0 <==> AllExited(workers)
  {
    if workers != [] {
      NoWeightMeansExited(workers[1..]);
      assert AllExited(workers) <==> workers[0] == Exited && AllExited(workers[1..]) by {
        assert forall w :: 0 < w < |workers| ==> workers[w] == workers[1..][w - 1];
      }
    }
  }

  /** After the close every worker event makes progress, and no other event adds work. */
  lemma WorkShrinks(s: State, e: Event)
    requires s.chanClosed && Enabled(s, e)
    ensures Apply(s, e).chanClosed
    ensures if WorkerEvent(e) then Work(Apply(s, e)) < Work(s) else Work(Apply(s, e)) == Work(s)
  {
    match e
    case Take(w) => WeightUpdate(s.workers, w, Busy(s.tasks[0]));
    case Finish(w, _) => WeightUpdate(s.workers, w, Idle);
    case Exit(w) => WeightUpdate(s.workers, w, Exited);
    case _ =>
  }

  /** After the close, either some worker can move or Stop can return: the pool never gets stuck. */
  lemma NeverStuck(cfg: Config, es: seq<Event>)
    requires ValidConfig(cfg) && Legal(cfg, es) && After(cfg, es).chanClosed
    ensures if Work(After(cfg, es)) == 0 then Enabled(After(cfg, es), StopReturns)
            else exists e :: WorkerEvent(e) && Enabled(After(cfg, es), e)
  {
    RunKeepsInv(cfg, es);
    var s := After(cfg, es);
    NoWeightMeansExited(s.workers);
    var first := s.workers[0];
    if Work(s) != 0 {
      var w :| 0 <= w < |s.workers| && s.workers[w] != Exited;
      var e := if s.workers[w].Busy? then Finish(w, false) else if s.tasks != [] then Take(w) else Exit(w);
      assert WorkerEvent(e) && Enabled(s, e);
    }
  }

  function WorkerEvents(es: seq<Event>): nat {
    if es == [] then 0 else WorkerEvents(es[..|es| - 1]) + if WorkerEvent(es[|es| - 1]) then 1 else 0
  }

  /** So at most Work worker events remain after the close, however the rest of the run goes. */
  lemma {:induction false} DrainBound(cfg: Config, es: seq<Event>, more: seq<Event>)
    requires ValidConfig(cfg) && Legal(cfg, es) && After(cfg, es).chanClosed && Legal(cfg, es + more)
    ensures After(cfg, es + more).chanClosed
    ensures WorkerEvents(more) + Work(After(cfg, es + more)) <= Work(After(cfg, es))
    decreases |more|
  {
    if more == [] {
      assert es + more == es;
    } else {
      var front := more[..|more| - 1];
      assert (es + more)[..|es + more| - 1] == es + front;
      DrainBound(cfg, es, front);
      WorkShrinks(After(cfg, es + front), more[|more| - 1]);
    }
  }

  lemma StopReturnedNext(s: State, e: Event)
    requires Enabled(s, e)
    ensures Apply(s, e).stopReturned <==> s.stopReturned || e == StopReturns
  {
  }

  /** Stop counts as returned exactly after its wait group was done. */
  lemma {:induction false} StopReturnedExactlyWhen(cfg: Config, es: seq<Event>)
    requires ValidConfig(cfg) && Legal(cfg, es)
    ensures After(cfg, es).stopReturned <==> StopReturns in es
    decreases |es|
  {
    if es != [] {
      var front, last := es[..|es| - 1], es[|es| - 1];
      StopReturnedExactlyWhen(cfg, front);
      StopReturnedNext(After(cfg, front), last);
      assert es == front + [last];
    }
  }

  // ---- What Submit answers ----

  /** On an open channel: discarding answers at once; blocking sends when there is room, or ends with its context. */
  lemma SendAnswers(cfg: Config, es: seq<Event>, i: TaskId)
    requires ValidConfig(cfg) && Legal(cfg, es) && At(After(cfg, es), i, AtSend) && !After(cfg, es).chanClosed
    ensures var s := After(cfg, es);
            cfg.strategy == Discard ==>
              && Enabled(s, Send(i)) && !Enabled(s, ContextEnds(i))
              && At(Apply(s, Send(i)), i, if |s.tasks| < cfg.queueSize then Accepted else Refused(QueueFull))
    ensures var s := After(cfg, es);
            cfg.strategy == Block ==>
              && (Enabled(s, Send(i)) <==> |s.tasks| < cfg.queueSize)
              && (Enabled(s, Send(i)) ==> At(Apply(s, Send(i)), i, Accepted))
              && Enabled(s, ContextEnds(i)) && At(Apply(s, ContextEnds(i)), i, Refused(ContextDone))
  {
    RunKeepsInv(cfg, es);
  }

  /** Every refusal has the cause it names. */
  ghost predicate CauseOk(cfg: Config, es: seq<Event>, s: State, i: TaskId) {
    && (At(s, i, Refused(PoolClosed)) ==> SetClosed in es)
    && (At(s, i, Refused(ContextDone)) ==> CheckContext(i, true) in es || ContextEnds(i) in es)
    && (At(s, i, Refused(QueueFull)) ==> cfg.strategy == Discard && Send(i) in es)
    && (s.closed ==> SetClosed in es)
  }

  lemma CauseNext(cfg: Config, es: seq<Event>, s: State, e: Event, i: TaskId)
    requires s.cfg == cfg && Enabled(s, e) && CauseOk(cfg, es, s, i)
    ensures CauseOk(cfg, es + [e], Apply(s, e), i)
  {
  }

  /**
   ErrPoolClosed only after Stop set the flag, a context error only from the submission's own context, and
   ErrQueueFull only from a discarding pool.
   */
  lemma {:induction false} RefusalsHaveCauses(cfg: Config, es: seq<Event>, i: TaskId)
    requires ValidConfig(cfg) && Legal(cfg, es)
    ensures CauseOk(cfg, es, After(cfg, es), i)
    decreases |es|
  {
    if es != [] {
      var front := es[..|es| - 1];
      RefusalsHaveCauses(cfg, front, i);
      RunKeepsInv(cfg, front);
      CauseNext(cfg, front, After(cfg, front), es[|es| - 1], i);
      assert es == front + [es[|es| - 1]];
    }
  }

  // ---- Submit against Stop ----

  /** How one event changes the flags, and that a refusal is final. */
  lemma EventOnFlags(s: State, e: Event, i: TaskId)
    requires Enabled(s, e)
    ensures Apply(s, e).closed == (s.closed || e == SetClosed)
    ensures Apply(s, e).chanClosed == (s.chanClosed || e == CloseChannel)
    ensures At(s, i, Refused(PoolClosed)) ==> At(Apply(s, e), i, Refused(PoolClosed))
    ensures e == CheckClosed(i) && s.closed ==> At(Apply(s, e), i, Refused(PoolClosed))
  {
  }

  /** A submission whose closed check comes after Stop set the flag is refused with ErrPoolClosed, whatever follows. */
  lemma {:induction false} LateSubmitIsRefused(cfg: Config, es: seq<Event>, k: nat, i: TaskId)
    requires ValidConfig(cfg) && Legal(cfg, es) && k < |es| && es[k] == CheckClosed(i)
    requires Legal(cfg, es[..k]) && After(cfg, es[..k]).closed
    ensures At(After(cfg, es), i, Refused(PoolClosed))
    decreases |es|
  {
    var front := es[..|es| - 1];
    if k < |front| {
      assert front[..k] == es[..k];
      LateSubmitIsRefused(cfg, front, k, i);
    } else {
      assert front == es[..k];
    }
    EventOnFlags(After(cfg, front), es[|es| - 1], i);
  }

  /** The send of a submitter panics exactly when the channel was closed after its own closed check had passed. */
  lemma SendPanicsExactlyInTheRace(cfg: Config, es: seq<Event>, k: nat, i: TaskId)
    requires ValidConfig(cfg) && Legal(cfg, es) && k < |es| && es[k] == CheckClosed(i)
    requires Legal(cfg, es[..k]) && Enabled(After(cfg, es), Send(i))
    ensures At(Apply(After(cfg, es), Send(i)), i, Panicked)
            <==> Closes(es, k)
    ensures At(Apply(After(cfg, es), Send(i)), i, Panicked) ==>
              Apply(After(cfg, es), Send(i)).accepted == After(cfg, es).accepted
  {
    RunKeepsInv(cfg, es);
    PrefixLegal(cfg, es, k);
    RunKeepsInv(cfg, es[..k]);
    if After(cfg, es[..k]).closed {
      LateSubmitIsRefused(cfg, es, k, i);
    }
    assert !After(cfg, es[..k]).chanClosed;
    CloseHappened(cfg, es, k);
  }

  predicate Closes(es: seq<Event>, k: nat) {
    exists j :: k <= j < |es| && es[j] == CloseChannel
  }

  lemma ClosesMore(es: seq<Event>, k: nat)
    requires k < |es|
    ensures Closes(es, k) <==> Closes(es[..|es| - 1], k) || es[|es| - 1] == CloseChannel
  {
    var front := es[..|es| - 1];
    if Closes(front, k) {
      var j :| k <= j < |front| && front[j] == CloseChannel;
      assert es[j] == CloseChannel;
    }
    if Closes(es, k) && es[|es| - 1] != CloseChannel {
      var j :| k <= j < |es| && es[j] == CloseChannel;
      assert front[j] == CloseChannel;
    }
  }

  lemma {:induction false} CloseHappened(cfg: Config, es: seq<Event>, k: nat)
    requires ValidConfig(cfg) && Legal(cfg, es) && k <= |es| && Legal(cfg, es[..k])
    ensures After(cfg, es).chanClosed <==> After(cfg, es[..k]).chanClosed || Closes(es, k)
    decreases |es|
  {
    if k == |es| {
      assert es[..k] == es;
    } else {
      var front := es[..|es| - 1];
      assert front[..k] == es[..k];
      CloseHappened(cfg, front, k);
      EventOnFlags(After(cfg, front), es[|es| - 1], 0);
      ClosesMore(es, k);
    }
  }

  /** The race is real under either strategy. */
  lemma SubmitRacingStopPanics(cfg: Config) returns (es: seq<Event>)
    requires ValidConfig(cfg)
    ensures Legal(cfg, es) && At(After(cfg, es), 0, Panicked)
  {
    es := [];
    OneMore(cfg, es, Enter(0));               es := es + [Enter(0)];
    OneMore(cfg, es, CheckClosed(0));         es := es + [CheckClosed(0)];
    OneMore(cfg, es, CheckContext(0, false)); es := es + [CheckContext(0, false)];
    OneMore(cfg, es, SetClosed);              es := es + [SetClosed];
    OneMore(cfg, es, CloseChannel);           es := es + [CloseChannel];
    OneMore(cfg, es, Send(0));                es := es + [Send(0)];
  }

  // ---- The source's object ----

  class Pool {
    const cfg: Config
    var tasks: seq<TaskId>
    var workers: seq<Worker>
    var closed: bool
    var chanClosed: bool
    var submissions: map<TaskId, Submission>
    ghost var accepted: seq<TaskId>
    ghost var started: seq<TaskId>
    ghost var finished: seq<TaskId>
    ghost var stopReturned: bool

    ghost function Snapshot(): State
      reads this
    {
      State(cfg, tasks, workers, closed, chanClosed, submissions, accepted, started, finished, stopReturned)
    }

    /** NewPool: sanitise the arguments, apply the options in order, start the workers. */
    constructor (workerCount: int, opts: seq<PoolOption>)
      ensures cfg == Configure(workerCount, opts) && Snapshot() == Init(cfg) && Inv(Snapshot())
    {
      var c := Config(if workerCount <= 0 then 1 else workerCount, 100, Block);
      for k := 0 to |opts|
        invariant c == Configure(workerCount, opts[..k])
      {
        assert opts[..k + 1][..k] == opts[..k];
        match opts[k] {
          case WithQueueSize(size) => if size > 0 { c := c.(queueSize := size); }
          case WithStrategy(strategy) => c := c.(strategy := strategy);
        }
      }
      assert opts[..|opts|] == opts;
      cfg := c;
      tasks, closed, chanClosed, submissions := [], false, false, map[];
      workers := seq(c.workerCount, _ => Idle);
      accepted, started, finished, stopReturned := [], [], [], false;
      new;
      RunKeepsInv(cfg, []);
    }

    /** Submit's load of the closed flag. */
    method LoadClosed(i: TaskId)
      requires Inv(Snapshot()) && Enabled(Snapshot(), CheckClosed(i))
      modifies this`submissions
      ensures Inv(Snapshot()) && Snapshot() == Apply(old(Snapshot()), CheckClosed(i))
    {
      EventKeepsInv(Snapshot(), CheckClosed(i));
      if closed {
        submissions := submissions[i := Refused(PoolClosed)];
      } else {
        submissions := submissions[i := Open];
      }
    }

    /** Submit's select, when the send is ready or the strategy does not wait for it. */
    method SelectSend(i: TaskId)
      requires Inv(Snapshot()) && Enabled(Snapshot(), Send(i))
      modifies this`submissions, this`tasks, this`accepted
      ensures Inv(Snapshot()) && Snapshot() == Apply(old(Snapshot()), Send(i))
    {
      EventKeepsInv(Snapshot(), Send(i));
      if chanClosed {
        submissions := submissions[i := Panicked];
      } else {
        match cfg.strategy {
          case Discard =>
            if |tasks| < cfg.queueSize {
              tasks, accepted, submissions := tasks + [i], accepted + [i], submissions[i := Accepted];
            } else {
              submissions := submissions[i := Refused(QueueFull)];
            }
          case Block =>
            tasks, accepted, submissions := tasks + [i], accepted + [i], submissions[i := Accepted];
        }
      }
    }

    /** A whole Submit without interference; a blocked send then ends only with its context. */
    method Submit(i: TaskId, contextDone: bool) returns (result: Submission)
      requires Inv(Snapshot()) && i !in submissions
      modifies this`submissions, this`tasks, this`accepted
      ensures Inv(Snapshot()) && At(Snapshot(), i, result)
      ensures result ==
        if closed then Refused(PoolClosed)
        else if contextDone then Refused(ContextDone)
        else if |old(tasks)| < cfg.queueSize then Accepted
        else Refused(if cfg.strategy == Discard then QueueFull else ContextDone)
      ensures tasks == if result == Accepted then old(tasks) + [i] else old(tasks)
    {
      EventKeepsInv(Snapshot(), Enter(i));
      submissions := submissions[i := Entered];
      LoadClosed(i);
      if submissions[i] == Open {
        EventKeepsInv(Snapshot(), CheckContext(i, contextDone));
        submissions := submissions[i := if contextDone then Refused(ContextDone) else AtSend];
        if !contextDone {
          if |tasks| < cfg.queueSize || cfg.strategy == Discard {
            SelectSend(i);
          } else {
            EventKeepsInv(Snapshot(), ContextEnds(i));
            submissions := submissions[i := Refused(ContextDone)];
          }
        }
      }
      result := submissions[i];
    }

    method TakeTask(w: WorkerId)
      requires Inv(Snapshot()) && Enabled(Snapshot(), Take(w))
      modifies this`workers, this`tasks, this`started
      ensures Inv(Snapshot()) && Snapshot() == Apply(old(Snapshot()), Take(w))
    {
      EventKeepsInv(Snapshot(), Take(w));
      var task := tasks[0];
      workers, tasks, started := workers[w := Busy(task)], tasks[1..], started + [task];
    }

    /** executeTask comes back, by return or by a recovered panic. */
    method EndTask(w: WorkerId, panicked: bool)
      requires Inv(Snapshot()) && Enabled(Snapshot(), Finish(w, panicked))
      modifies this`workers, this`finished
      ensures Inv(Snapshot()) && Snapshot() == Apply(old(Snapshot()), Finish(w, panicked))
    {
      EventKeepsInv(Snapshot(), Finish(w, panicked));
      finished := finished + [workers[w].task];
      workers := workers[w := Idle];
    }

    /** workerLoop of one worker on a closed channel: it runs what is queued, in order, and exits. */
    method WorkerLoop(w: WorkerId, panics: TaskId -> bool)
      requires Inv(Snapshot()) && chanClosed && w < |workers| && workers[w] == Idle
      modifies this`workers, this`tasks, this`started, this`finished
      ensures Inv(Snapshot()) && tasks == [] && workers == old(workers)[w := Exited]
      ensures finished == old(finished + tasks) && started == old(started + tasks)
    {
      while tasks != []
        invariant Inv(Snapshot()) && workers == old(workers)
        invariant finished + tasks == old(finished + tasks) && started + tasks == old(started + tasks)
        decreases |tasks|
      {
        RunNext(w, panics);
      }
      EventKeepsInv(Snapshot(), Exit(w));
      workers := workers[w := Exited];
    }

    /** One turn of workerLoop. */
    method RunNext(w: WorkerId, panics: TaskId -> bool)
      requires Inv(Snapshot()) && Enabled(Snapshot(), Take(w))
      modifies this`workers, this`tasks, this`started, this`finished
      ensures Inv(Snapshot()) && workers == old(workers) && tasks == old(tasks)[1..]
      ensures finished == old(finished + [tasks[0]]) && started == old(started + [tasks[0]])
    {
      var task := tasks[0];
      TakeTask(w);
      EndTask(w, panics(task));
    }

    /** What is left of one worker after the close. */
    method RunToExit(w: WorkerId, panics: TaskId -> bool)
      requires Inv(Snapshot()) && chanClosed && w < |workers|
      modifies this`workers, this`tasks, this`started, this`finished
      ensures Inv(Snapshot()) && workers == old(workers)[w := Exited]
    {
      if workers[w].Busy? {
        EndTask(w, panics(workers[w].task));
      }
      if workers[w] == Idle {
        WorkerLoop(w, panics);
      }
    }

    /** The once-only part of Stop. */
    method CloseTasks()
      requires Inv(Snapshot())
      modifies this`closed, this`chanClosed
      ensures Inv(Snapshot()) && closed && chanClosed
    {
      if !closed {
        EventKeepsInv(Snapshot(), SetClosed);
        closed := true;
      }
      if !chanClosed {
        EventKeepsInv(Snapshot(), CloseChannel);
        chanClosed := true;
      }
    }

    /** Stop, with the workers scheduled one after another: afterwards every accepted task has finished once. */
    method Stop(panics: TaskId -> bool)
      requires Inv(Snapshot())
      modifies this
      ensures Inv(Snapshot()) && closed && chanClosed && stopReturned
      ensures tasks == [] && accepted == old(accepted) && submissions == old(submissions)
      ensures forall i :: multiset(finished)[i] == multiset(accepted)[i]
    {
      CloseTasks();
      for w := 0 to |workers|
        invariant Inv(Snapshot()) && closed && chanClosed && |workers| == cfg.workerCount
        invariant accepted == old(accepted) && submissions == old(submissions)
        invariant forall v :: 0 <= v < w ==> workers[v] == Exited
      {
        RunToExit(w, panics);
      }
      EventKeepsInv(Snapshot(), StopReturns);
      stopReturned := true;
      ExitedMeansDrained(Snapshot());
    }
  }
}
