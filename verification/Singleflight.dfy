/**
 Singleflight of pkg/routine/singleflight.go.

 Every section under the mutex, every return of `fn`, every channel send, every receive and
 every cancellation is one atomic event; a run is any sequence of enabled events, over any
 keys, callers and calls, with `Forget` at any time.  Pointers to call records and channels
 are identifiers.  The class at the end has the source's map, with the call records and channels
 that Go reaches by pointer in two maps of their own, and performs the same events as statements.

 The history kept beside the source's fields: `joined` (channels that ever joined a call),
 the full list `sent` on each channel, and the set of keys ever passed to Forget.
 */
module SingleflightModel {
  import opened Wrappers

  type Key = string
  type CallId = nat
  type ChanId = nat

  datatype Reply<T> = Reply(val: T, err: Option<string>, shared: bool)

  /** A call started by Do answers its caller directly, one started by DoChan through its own channel. */
  datatype Leader = ByDo | ByChan(ch: ChanId)

  /** InFn: fn is running.  Returned: it ended, completion pending.  Sending: off the map.  Answered: done. */
  datatype Stage = InFn | Returned | Sending | Answered

  /** `pending` is the local slice that execute took from `chans` and has not sent to yet. */
  datatype Call<T> = Call(
    key: Key, leader: Leader, stage: Stage, val: T, err: Option<string>, dups: nat,
    chans: seq<ChanId>, pending: seq<ChanId>, answer: Option<Reply<T>>, joined: set<ChanId>)

  datatype Outcome<T> = Waiting | Got(reply: Reply<T>) | Left

  /** A channel of capacity one, the call it belongs to, and what its receiver has done. */
  datatype Box<T> = Box(call: CallId, sent: seq<Reply<T>>, outcome: Outcome<T>)

  datatype State<T> = State(
    m: map<Key, CallId>, calls: map<CallId, Call<T>>, boxes: map<ChanId, Box<T>>, forgotten: set<Key>)

  datatype Event<T> =
    | Do(key: Key, c: CallId, ch: ChanId)
    | DoChan(key: Key, c: CallId, ch: ChanId)
    | Return(c: CallId, val: T, err: Option<string>)
    | Panic(c: CallId, message: string)
    | Complete(c: CallId)
    | Send(c: CallId)
    | Answer(c: CallId)
    | Receive(ch: ChanId)
    | Cancel(ch: ChanId)
    | Forget(key: Key)

  function Init<T>(): State<T> {
    State(map[], map[], map[], {})
  }

  function NewCall<T>(key: Key, leader: Leader, zero: T): Call<T> {
    Call(key, leader, InFn, zero, None, 0, [], [], None, {})
  }

  function PanicError(message: string): string {
    "routine.Singleflight: panic recovered: " + message
  }

  /** A send on this channel would not block. */
  predicate Room<T>(box: Box<T>) {
    box.sent == [] || (box.outcome.Got? && |box.sent| == 1)
  }

  function Push<T>(box: Box<T>, reply: Reply<T>): Box<T> {
    box.(sent := box.sent + [reply])
  }

  predicate Enabled<T>(s: State<T>, e: Event<T>) {
    match e
    case Do(_, c, ch) => c !in s.calls && ch !in s.boxes
    case DoChan(_, c, ch) => c !in s.calls && ch !in s.boxes
    case Return(c, _, _) => c in s.calls && s.calls[c].stage == InFn
    case Panic(c, _) => c in s.calls && s.calls[c].stage == InFn
    case Complete(c) => c in s.calls && s.calls[c].stage == Returned
    case Send(c) =>
      c in s.calls && s.calls[c].stage == Sending && s.calls[c].pending != []
      && s.calls[c].pending[0] in s.boxes && Room(s.boxes[s.calls[c].pending[0]])
    case Answer(c) =>
      c in s.calls && s.calls[c].stage == Sending && s.calls[c].pending == []
      && (s.calls[c].leader.ByChan? ==> s.calls[c].leader.ch in s.boxes && Room(s.boxes[s.calls[c].leader.ch]))
    case Receive(ch) => ch in s.boxes && s.boxes[ch].outcome.Waiting? && s.boxes[ch].sent != []
    case Cancel(ch) => ch in s.boxes && s.boxes[ch].outcome.Waiting?
    case Forget(_) => true
  }

  function Join<T>(s: State<T>, c: CallId, ch: ChanId): State<T>
    requires c in s.calls
  {
    var call := s.calls[c];
    s.(calls := s.calls[c := call.(dups := call.dups + 1, chans := call.chans + [ch], joined := call.joined + {ch})],
       boxes := s.boxes[ch := Box(c, [], Waiting)])
  }

  function Apply<T>(zero: T, s: State<T>, e: Event<T>): State<T>
    requires Enabled(s, e)
  {
    match e
    case Do(key, c, ch) =>
      if key in s.m && s.m[key] in s.calls then Join(s, s.m[key], ch)
      else s.(m := s.m[key := c], calls := s.calls[c := NewCall(key, ByDo, zero)])
    case DoChan(key, c, ch) =>
      if key in s.m && s.m[key] in s.calls then Join(s, s.m[key], ch)
      else s.(m := s.m[key := c], calls := s.calls[c := NewCall(key, ByChan(ch), zero)],
              boxes := s.boxes[ch := Box(c, [], Waiting)])
    case Return(c, val, err) => s.(calls := s.calls[c := s.calls[c].(stage := Returned, val := val, err := err)])
    case Panic(c, message) =>
      s.(calls := s.calls[c := s.calls[c].(stage := Returned, val := zero, err := Some(PanicError(message)))])
    case Complete(c) =>
      var call := s.calls[c];
      s.(m := s.m - {call.key}, calls := s.calls[c := call.(stage := Sending, pending := call.chans, chans := [])])
    case Send(c) =>
      var call := s.calls[c];
      var ch := call.pending[0];
      s.(calls := s.calls[c := call.(pending := call.pending[1..])],
         boxes := s.boxes[ch := Push(s.boxes[ch], Reply(call.val, call.err, true))])
    case Answer(c) =>
      var call := s.calls[c];
      var reply := Reply(call.val, call.err, call.dups > 0);
      var s' := s.(calls := s.calls[c := call.(stage := Answered, answer := Some(reply))]);
      if call.leader.ByDo? then s'
      else s'.(boxes := s.boxes[call.leader.ch := Push(s.boxes[call.leader.ch], reply)])
    case Receive(ch) => s.(boxes := s.boxes[ch := s.boxes[ch].(outcome := Got(s.boxes[ch].sent[0]))])
    case Cancel(ch) => s.(boxes := s.boxes[ch := s.boxes[ch].(outcome := Left)])
    case Forget(key) => s.(m := s.m - {key}, forgotten := s.forgotten + {key})
  }

  // ---- Runs ----

  ghost predicate Legal<T(!new)>(zero: T, es: seq<Event<T>>)
    decreases |es|, 0
  {
    es == [] || (Legal(zero, es[..|es| - 1]) && Enabled(After(zero, es[..|es| - 1]), es[|es| - 1]))
  }

  ghost function After<T(!new)>(zero: T, es: seq<Event<T>>): State<T>
    requires Legal(zero, es)
    decreases |es|, 1
  {
    if es == [] then Init() else Apply(zero, After(zero, es[..|es| - 1]), es[|es| - 1])
  }

  lemma OneMore<T(!new)>(zero: T, es: seq<Event<T>>, e: Event<T>)
    requires Legal(zero, es) && Enabled(After(zero, es), e)
    ensures Legal(zero, es + [e]) && After(zero, es + [e]) == Apply(zero, After(zero, es), e)
  {
    assert (es + [e])[..|es|] == es;
  }

  lemma {:induction false} PrefixLegal<T(!new)>(zero: T, es: seq<Event<T>>, i: nat)
    requires Legal(zero, es) && i <= |es|
    ensures Legal(zero, es[..i])
    ensures i < |es| ==> Legal(zero, es[..i + 1]) && Enabled(After(zero, es[..i]), es[i])
                         && After(zero, es[..i + 1]) == Apply(zero, After(zero, es[..i]), es[i])
    decreases |es|
  {
    assert es[..|es|] == es;
    if i < |es| - 1 {
      var front := es[..|es| - 1];
      assert front[..i] == es[..i] && front[..i + 1] == es[..i + 1];
      PrefixLegal(zero, front, i);
    }
  }

  // ---- The invariant ----

  /** fn has not been completed: the call may still be in the map and may still be joined. */
  predicate InFlight<T>(call: Call<T>) {
    call.stage == InFn || call.stage == Returned
  }

  /** Channels that joined and have not been sent to. */
  function Outstanding<T>(call: Call<T>): seq<ChanId> {
    if InFlight(call) then call.chans else call.pending
  }

  ghost predicate Distinct(chans: seq<ChanId>) {
    chans == [] || (chans[0] !in chans[1..] && Distinct(chans[1..]))
  }

  lemma {:induction false} DistinctAppend(chans: seq<ChanId>, ch: ChanId)
    requires Distinct(chans) && ch !in chans
    ensures Distinct(chans + [ch])
  {
    if chans != [] {
      DistinctAppend(chans[1..], ch);
      assert (chans + [ch])[1..] == chans[1..] + [ch];
    }
  }

  /** A call's own record. */
  ghost predicate CallInv<T>(call: Call<T>) {
    && call.dups == |call.joined|
    && Distinct(Outstanding(call))
    && (forall ch :: ch in Outstanding(call) ==> ch in call.joined)
    && (InFlight(call) ==> |call.chans| == call.dups && forall ch :: ch in call.joined ==> ch in call.chans)
    && (call.stage == Answered ==> call.pending == [])
    && call.answer == (if call.stage == Answered then Some(Reply(call.val, call.err, call.dups > 0)) else None)
    && (call.leader.ByChan? ==> call.leader.ch !in call.joined)
  }

  /** The channels of call c exist and know that they belong to it. */
  ghost predicate Owns<T>(c: CallId, call: Call<T>, boxes: map<ChanId, Box<T>>) {
    && (forall ch :: ch in call.joined ==> ch in boxes && boxes[ch].call == c)
    && (call.leader.ByChan? ==> call.leader.ch in boxes && boxes[call.leader.ch].call == c)
  }

  /** What has been sent on a channel so far, as a function of its call. */
  function Due<T>(call: Call<T>, ch: ChanId): seq<Reply<T>> {
    if ch in call.joined then
      if ch in Outstanding(call) then [] else [Reply(call.val, call.err, true)]
    else if call.stage == Answered then [Reply(call.val, call.err, call.dups > 0)]
    else []
  }

  ghost predicate BoxInv<T>(ch: ChanId, box: Box<T>, call: Call<T>) {
    && (ch in call.joined || call.leader == ByChan(ch))
    && box.sent == Due(call, ch)
    && (box.outcome.Got? ==> box.sent == [box.outcome.reply])
  }

  ghost predicate CallOk<T>(s: State<T>, c: CallId) {
    c in s.calls ==> CallInv(s.calls[c]) && Owns(c, s.calls[c], s.boxes)
  }

  ghost predicate BoxOk<T>(s: State<T>, ch: ChanId) {
    ch in s.boxes ==> s.boxes[ch].call in s.calls && BoxInv(ch, s.boxes[ch], s.calls[s.boxes[ch].call])
  }

  ghost predicate LinksInv<T>(s: State<T>) {
    && (forall c {:trigger CallOk(s, c)} :: CallOk(s, c))
    && (forall ch {:trigger BoxOk(s, ch)} :: BoxOk(s, ch))
  }

  /** The map only knows calls that are in flight, under their own key. */
  ghost predicate KeyOk<T>(s: State<T>, key: Key) {
    key in s.m ==> s.m[key] in s.calls && s.calls[s.m[key]].key == key && InFlight(s.calls[s.m[key]])
  }

  /** An in-flight call whose key was never forgotten is the one the map knows. */
  ghost predicate TrackOk<T>(s: State<T>, c: CallId) {
    c in s.calls && InFlight(s.calls[c]) && s.calls[c].key !in s.forgotten ==>
      s.calls[c].key in s.m && s.m[s.calls[c].key] == c
  }

  ghost predicate MapInv<T>(s: State<T>) {
    && (forall key {:trigger KeyOk(s, key)} :: KeyOk(s, key))
    && (forall c {:trigger TrackOk(s, c)} :: TrackOk(s, c))
  }

  ghost predicate Inv<T>(s: State<T>) {
    MapInv(s) && LinksInv(s)
  }

  lemma EventKeepsMap<T(!new)>(zero: T, s: State<T>, e: Event<T>)
    requires MapInv(s) && Enabled(s, e)
    ensures MapInv(Apply(zero, s, e))
  {
    var s' := Apply(zero, s, e);
    if e.Do? || e.DoChan? {
      assert KeyOk(s, e.key);
    }
    forall key ensures KeyOk(s', key) {
      assert KeyOk(s, key);
    }
    forall c ensures TrackOk(s', c) {
      assert TrackOk(s, c);
      if e.Do? || e.DoChan? {
        assert e.key !in s.m && c in s.calls && s.calls[c].key == e.key && InFlight(s.calls[c]) ==>
            e.key in s.forgotten;
      }
      if e.Complete? {
        assert TrackOk(s, e.c);
      }
    }
  }

  lemma JoinKeepsCall<T>(call: Call<T>, ch: ChanId)
    requires CallInv(call) && InFlight(call) && ch !in call.joined && call.leader != ByChan(ch)
    ensures CallInv(call.(dups := call.dups + 1, chans := call.chans + [ch], joined := call.joined + {ch}))
  {
    DistinctAppend(call.chans, ch);
    assert forall x :: x in call.chans + [ch] <==> x in call.chans || x == ch;
  }

  lemma JoinKeepsBox<T>(s: State<T>, c: CallId, ch: ChanId, x: ChanId)
    requires c in s.calls && CallOk(s, c) && BoxOk(s, x) && InFlight(s.calls[c]) && ch !in s.boxes
    ensures BoxOk(Join(s, c, ch), x)
  {
    var chans := s.calls[c].chans;
    assert x in chans + [ch] <==> x in chans || x == ch;
  }

  lemma JoinKeepsJoined<T>(s: State<T>, c: CallId, ch: ChanId)
    requires c in s.calls && CallOk(s, c) && InFlight(s.calls[c]) && ch !in s.boxes
    ensures CallOk(Join(s, c, ch), c)
  {
    JoinKeepsCall(s.calls[c], ch);
  }

  lemma JoinKeepsOther<T>(s: State<T>, c: CallId, ch: ChanId, d: CallId)
    requires c in s.calls && CallOk(s, d) && d != c && ch !in s.boxes
    ensures CallOk(Join(s, c, ch), d)
  {
  }

  lemma JoinKeepsLinks<T>(s: State<T>, c: CallId, ch: ChanId)
    requires LinksInv(s) && c in s.calls && InFlight(s.calls[c]) && ch !in s.boxes
    ensures LinksInv(Join(s, c, ch))
  {
    var s' := Join(s, c, ch);
    assert CallOk(s, c);
    JoinKeepsJoined(s, c, ch);
    forall d ensures CallOk(s', d) {
      assert CallOk(s, d);
      if d != c {
        JoinKeepsOther(s, c, ch, d);
      }
    }
    forall x ensures BoxOk(s', x) {
      assert BoxOk(s, x);
      JoinKeepsBox(s, c, ch, x);
    }
  }

  lemma StartKeepsLinks<T(!new)>(zero: T, s: State<T>, e: Event<T>)
    requires LinksInv(s) && Enabled(s, e) && (e.Do? || e.DoChan?) && e.key !in s.m
    ensures LinksInv(Apply(zero, s, e))
  {
    var s' := Apply(zero, s, e);
    forall d ensures CallOk(s', d) {
      assert CallOk(s, d);
    }
    forall x ensures BoxOk(s', x) {
      assert BoxOk(s, x);
    }
  }

  lemma ReturnKeepsLinks<T>(s: State<T>, c: CallId, val: T, err: Option<string>)
    requires LinksInv(s) && c in s.calls && s.calls[c].stage == InFn
    ensures var s' := s.(calls := s.calls[c := s.calls[c].(stage := Returned, val := val, err := err)]);
            LinksInv(s')
  {
    var s' := s.(calls := s.calls[c := s.calls[c].(stage := Returned, val := val, err := err)]);
    assert CallOk(s, c);
    forall d ensures CallOk(s', d) {
      assert CallOk(s, d);
    }
    forall x ensures BoxOk(s', x) {
      assert BoxOk(s, x);
    }
  }

  lemma CompleteKeepsLinks<T(!new)>(zero: T, s: State<T>, c: CallId)
    requires LinksInv(s) && Enabled(s, Complete(c))
    ensures LinksInv(Apply(zero, s, Complete(c)))
  {
    var s' := Apply(zero, s, Complete(c));
    forall d ensures CallOk(s', d) {
      assert CallOk(s, d);
    }
    forall x ensures BoxOk(s', x) {
      assert BoxOk(s, x);
    }
  }

  lemma SendKeepsLinks<T(!new)>(zero: T, s: State<T>, c: CallId)
    requires LinksInv(s) && Enabled(s, Send(c))
    ensures LinksInv(Apply(zero, s, Send(c)))
  {
    var before, after := s.calls[c].pending, s.calls[c].pending[1..];
    var s' := Apply(zero, s, Send(c));
    assert forall x :: x in before <==> x == before[0] || x in after;
    assert CallOk(s, c) && BoxOk(s, before[0]);
    assert before[0] !in after && s.boxes[before[0]].call == c && s.boxes[before[0]].sent == [];
    forall d ensures CallOk(s', d) {
      assert CallOk(s, d);
    }
    forall x ensures BoxOk(s', x) {
      assert BoxOk(s, x);
    }
  }

  lemma AnswerKeepsLinks<T(!new)>(zero: T, s: State<T>, c: CallId)
    requires LinksInv(s) && Enabled(s, Answer(c))
    ensures LinksInv(Apply(zero, s, Answer(c)))
  {
    var s' := Apply(zero, s, Answer(c));
    assert CallOk(s, c);
    if s.calls[c].leader.ByChan? {
      assert BoxOk(s, s.calls[c].leader.ch);
    }
    forall d ensures CallOk(s', d) {
      assert CallOk(s, d);
    }
    forall x ensures BoxOk(s', x) {
      assert BoxOk(s, x);
    }
  }

  lemma OutsideKeepsLinks<T(!new)>(zero: T, s: State<T>, e: Event<T>)
    requires LinksInv(s) && Enabled(s, e) && (e.Receive? || e.Cancel? || e.Forget?)
    ensures LinksInv(Apply(zero, s, e))
  {
    var s' := Apply(zero, s, e);
    forall d ensures CallOk(s', d) {
      assert CallOk(s, d);
    }
    forall x ensures BoxOk(s', x) {
      assert BoxOk(s, x);
    }
  }

  lemma EventKeepsInv<T(!new)>(zero: T, s: State<T>, e: Event<T>)
    requires Inv(s) && Enabled(s, e)
    ensures Inv(Apply(zero, s, e))
  {
    EventKeepsMap(zero, s, e);
    if e.Do? || e.DoChan? {
      assert KeyOk(s, e.key);
    }
    match e
    case Do(key, c, ch) => if key in s.m { JoinKeepsLinks(s, s.m[key], ch); } else { StartKeepsLinks(zero, s, e); }
    case DoChan(key, c, ch) => if key in s.m { JoinKeepsLinks(s, s.m[key], ch); } else { StartKeepsLinks(zero, s, e); }
    case Return(c, val, err) => ReturnKeepsLinks(s, c, val, err);
    case Panic(c, message) => ReturnKeepsLinks(s, c, zero, Some(PanicError(message)));
    case Complete(c) => CompleteKeepsLinks(zero, s, c);
    case Send(c) => SendKeepsLinks(zero, s, c);
    case Answer(c) => AnswerKeepsLinks(zero, s, c);
    case _ => OutsideKeepsLinks(zero, s, e);
  }

  lemma {:induction false} RunKeepsInv<T(!new)>(zero: T, es: seq<Event<T>>)
    requires Legal(zero, es)
    ensures Inv(After(zero, es))
    decreases |es|
  {
    if es != [] {
      RunKeepsInv(zero, es[..|es| - 1]);
      EventKeepsInv(zero, After(zero, es[..|es| - 1]), es[|es| - 1]);
    }
  }

  // ---- Delivery ----

  /** Whatever a completed call still has to send can be sent at once: no send ever blocks. */
  lemma NoSendBlocks<T>(s: State<T>, c: CallId)
    requires Inv(s) && c in s.calls && s.calls[c].stage == Sending
    ensures if s.calls[c].pending != [] then Enabled(s, Send(c)) else Enabled(s, Answer(c))
  {
    assert CallOk(s, c);
    if s.calls[c].pending != [] {
      assert s.calls[c].pending[0] in s.calls[c].joined;
      assert BoxOk(s, s.calls[c].pending[0]);
    } else if s.calls[c].leader.ByChan? {
      assert BoxOk(s, s.calls[c].leader.ch);
    }
  }

  /**
   Exactly-once delivery: in every run, whatever was cancelled or forgotten, a channel belongs to
   one call, has nothing while fn runs, and has exactly that call's one reply once it is answered.
   */
  lemma ExactlyOneReply<T(!new)>(zero: T, es: seq<Event<T>>, ch: ChanId)
    requires Legal(zero, es) && ch in After(zero, es).boxes
    ensures var s := After(zero, es);
            var box := s.boxes[ch];
            && box.call in s.calls
            && |box.sent| <= 1
            && (box.outcome.Got? ==> box.sent == [box.outcome.reply])
            && (InFlight(s.calls[box.call]) ==> box.sent == [])
            && (s.calls[box.call].stage == Answered ==>
                  var call := s.calls[box.call];
                  box.sent == [Reply(call.val, call.err, if ch in call.joined then true else call.joined != {})])
  {
    RunKeepsInv(zero, es);
    var s := After(zero, es);
    assert BoxOk(s, ch) && CallOk(s, s.boxes[ch].call);
  }

  /** Leader and followers agree, and the leader's shared flag says exactly whether anyone joined. */
  lemma Agreement<T(!new)>(zero: T, es: seq<Event<T>>, c: CallId)
    requires Legal(zero, es) && c in After(zero, es).calls && After(zero, es).calls[c].answer.Some?
    ensures var s := After(zero, es);
            var answer := s.calls[c].answer.value;
            && answer.shared == (s.calls[c].joined != {})
            && (forall ch :: ch in s.boxes && s.boxes[ch].call == c && s.boxes[ch].outcome.Got? ==>
                  s.boxes[ch].outcome.reply.val == answer.val && s.boxes[ch].outcome.reply.err == answer.err)
  {
    RunKeepsInv(zero, es);
    var s := After(zero, es);
    assert CallOk(s, c);
    forall ch | ch in s.boxes && s.boxes[ch].call == c && s.boxes[ch].outcome.Got?
      ensures s.boxes[ch].outcome.reply.val == s.calls[c].answer.value.val
      ensures s.boxes[ch].outcome.reply.err == s.calls[c].answer.value.err
    {
      assert BoxOk(s, ch);
    }
  }

  /** The result with which an event ends the fn of call c, if it does. */
  function FnEnd<T>(zero: T, e: Event<T>, c: CallId): Option<(T, Option<string>)> {
    match e
    case Return(d, val, err) => if d == c then Some((val, err)) else None
    case Panic(d, message) => if d == c then Some((zero, Some(PanicError(message)))) else None
    case _ => None
  }

  lemma EventKeepsResult<T(!new)>(zero: T, s: State<T>, e: Event<T>, c: CallId)
    requires Enabled(s, e) && c in s.calls && s.calls[c].stage != InFn
    ensures var s' := Apply(zero, s, e);
            && c in s'.calls && s'.calls[c].stage != InFn
            && s'.calls[c].val == s.calls[c].val && s'.calls[c].err == s.calls[c].err
  {
  }

  lemma {:induction false} ResultStays<T(!new)>(zero: T, es: seq<Event<T>>, i: nat, c: CallId)
    requires Legal(zero, es) && i < |es| && FnEnd(zero, es[i], c).Some?
    ensures var s := After(zero, es);
            c in s.calls && s.calls[c].stage != InFn && (s.calls[c].val, s.calls[c].err) == FnEnd(zero, es[i], c).value
    decreases |es|
  {
    var front, last := es[..|es| - 1], es[|es| - 1];
    if i < |front| {
      assert front[i] == es[i];
      ResultStays(zero, front, i, c);
      EventKeepsResult(zero, After(zero, front), last, c);
    }
  }

  lemma FnEndsOnce<T(!new)>(zero: T, es: seq<Event<T>>, i: nat, j: nat, c: CallId)
    requires Legal(zero, es) && i < j < |es| && FnEnd(zero, es[i], c).Some?
    ensures FnEnd(zero, es[j], c).None?
  {
    PrefixLegal(zero, es, j);
    ResultStays(zero, es[..j], i, c);
  }

  /** Every reply of a call carries what its fn returned, or the zero value and the panic's error. */
  lemma RepliesCarryFnResult<T(!new)>(zero: T, es: seq<Event<T>>, i: nat, c: CallId, ch: ChanId)
    requires Legal(zero, es) && i < |es| && FnEnd(zero, es[i], c).Some?
    requires ch in After(zero, es).boxes && After(zero, es).boxes[ch].call == c
    ensures forall r :: r in After(zero, es).boxes[ch].sent ==> (r.val, r.err) == FnEnd(zero, es[i], c).value
    ensures forall j :: i < j < |es| ==> FnEnd(zero, es[j], c).None?
  {
    ResultStays(zero, es, i, c);
    RunKeepsInv(zero, es);
    assert BoxOk(After(zero, es), ch);
    forall j | i < j < |es| ensures FnEnd(zero, es[j], c).None? {
      FnEndsOnce(zero, es, i, j, c);
    }
  }

  /** After a panic every reply is the zero value with an error that names the panic. */
  lemma PanicIsReported<T(!new)>(zero: T, es: seq<Event<T>>, i: nat, c: CallId, ch: ChanId, message: string)
    requires Legal(zero, es) && i < |es| && es[i] == Panic(c, message)
    requires ch in After(zero, es).boxes && After(zero, es).boxes[ch].call == c
    ensures forall r :: r in After(zero, es).boxes[ch].sent ==>
              r.val == zero && r.err == Some("routine.Singleflight: panic recovered: " + message)
  {
    RepliesCarryFnResult(zero, es, i, c, ch);
  }

  // ---- Uniqueness ----

  /** For a key that was never forgotten, the map entry is exactly the one execution in flight. */
  lemma OneExecutionPerKey<T(!new)>(zero: T, es: seq<Event<T>>, key: Key)
    requires Legal(zero, es) && key !in After(zero, es).forgotten
    ensures var s := After(zero, es);
            && (key in s.m <==> exists c :: c in s.calls && s.calls[c].key == key && InFlight(s.calls[c]))
            && (forall c, d ::
                  (c in s.calls && d in s.calls && s.calls[c].key == key && s.calls[d].key == key
                   && InFlight(s.calls[c]) && InFlight(s.calls[d])) ==> c == d)
  {
    RunKeepsInv(zero, es);
    var s := After(zero, es);
    assert KeyOk(s, key);
    forall c | c in s.calls && s.calls[c].key == key && InFlight(s.calls[c])
      ensures key in s.m && s.m[key] == c
    {
      assert TrackOk(s, c);
    }
  }

  /** Call c, if it is in flight for the key, is the one in the map. */
  ghost predicate KnownAt<T>(s: State<T>, key: Key, c: CallId) {
    c in s.calls && s.calls[c].key == key && InFlight(s.calls[c]) ==> key in s.m && s.m[key] == c
  }

  /** Every execution in flight for the key is the one in the map. */
  ghost predicate Known<T>(s: State<T>, key: Key) {
    forall c {:trigger KnownAt(s, key, c)} :: KnownAt(s, key, c)
  }

  lemma KeepsTrack<T(!new)>(zero: T, s: State<T>, e: Event<T>, key: Key)
    requires MapInv(s) && Known(s, key) && Enabled(s, e) && !(e == Forget(key) && key in s.m)
    ensures Known(Apply(zero, s, e), key)
  {
    assert KeyOk(s, key);
    if e.Do? || e.DoChan? {
      assert KeyOk(s, e.key);
    }
    if e.Complete? {
      assert KnownAt(s, key, e.c);
    }
    forall c ensures KnownAt(Apply(zero, s, e), key, c) {
      assert KnownAt(s, key, c);
    }
  }

  /** As long as every execution in flight for the key is in the map, only Forget of the key changes that. */
  lemma FirstLossIsForget<T(!new)>(zero: T, es: seq<Event<T>>, e: Event<T>, key: Key)
    requires Legal(zero, es) && Known(After(zero, es), key) && Enabled(After(zero, es), e)
    ensures Known(Apply(zero, After(zero, es), e), key) <==> !(e == Forget(key) && key in After(zero, es).m)
  {
    RunKeepsInv(zero, es);
    var s := After(zero, es);
    if e == Forget(key) && key in s.m {
      assert KeyOk(s, key);
      assert !KnownAt(Apply(zero, s, e), key, s.m[key]);
    } else {
      KeepsTrack(zero, s, e, key);
    }
  }

  /**
   In any reachable state, the execution in the map leaves it while still in flight exactly by Forget of its
   key or by the completion of another call of the key; such a call has itself been forgotten before.
   */
  lemma TrackLostExactlyWhen<T(!new)>(zero: T, es: seq<Event<T>>, e: Event<T>, key: Key)
    requires Legal(zero, es) && key in After(zero, es).m && Enabled(After(zero, es), e)
    ensures var s, s' := After(zero, es), Apply(zero, After(zero, es), e);
            var d := s.m[key];
            && d in s.calls && d in s'.calls
            && (InFlight(s'.calls[d]) && !(key in s'.m && s'.m[key] == d)
                <==> e == Forget(key) || (e.Complete? && e.c != d && s.calls[e.c].key == key))
            && (e.Complete? && e.c != d && s.calls[e.c].key == key ==> key in s.forgotten)
  {
    RunKeepsInv(zero, es);
    var s := After(zero, es);
    assert KeyOk(s, key);
    if e.Do? || e.DoChan? {
      assert KeyOk(s, e.key);
    }
    if e.Complete? {
      assert TrackOk(s, e.c);
    }
  }

  /** From any reachable state, Forget of a key in the map and the next Do of it give two executions at once. */
  lemma ForgetLetsTwoRun<T(!new)>(zero: T, es: seq<Event<T>>, key: Key, c: CallId, ch: ChanId)
    requires Legal(zero, es) && key in After(zero, es).m && Enabled(After(zero, es), Do(key, c, ch))
    ensures Legal(zero, es + [Forget(key)] + [Do(key, c, ch)])
    ensures var d, s := After(zero, es).m[key], After(zero, es + [Forget(key)] + [Do(key, c, ch)]);
            && c != d && c in s.calls && d in s.calls
            && s.calls[c].key == key && InFlight(s.calls[c]) && s.calls[d].key == key && InFlight(s.calls[d])
  {
    RunKeepsInv(zero, es);
    assert KeyOk(After(zero, es), key);
    OneMore(zero, es, Forget(key));
    OneMore(zero, es + [Forget(key)], Do(key, c, ch));
  }

  /** One Forget can cost more: the forgotten call's completion evicts the newer call, and a third overlaps it. */
  lemma ForgottenCompletionEvictsNewerCall<T(!new)>(zero: T) returns (es: seq<Event<T>>)
    ensures Legal(zero, es) && |es| == 6 && es[1] == Forget("k") && (forall i :: 2 <= i < 6 ==> !es[i].Forget?)
    ensures var s := After(zero, es);
            && 1 in s.calls && s.calls[1].key == "k" && InFlight(s.calls[1])
            && 2 in s.calls && s.calls[2].key == "k" && InFlight(s.calls[2])
  {
    es := [];
    OneMore(zero, es, Do("k", 0, 0));         es := es + [Do("k", 0, 0)];
    OneMore(zero, es, Forget("k"));           es := es + [Forget("k")];
    OneMore(zero, es, Do("k", 1, 1));         es := es + [Do("k", 1, 1)];
    OneMore(zero, es, Return(0, zero, None)); es := es + [Return(0, zero, None)];
    OneMore(zero, es, Complete(0));           es := es + [Complete(0)];
    OneMore(zero, es, Do("k", 2, 2));         es := es + [Do("k", 2, 2)];
  }

  // ---- Progress ----

  /** What a completed call has left to do: one send for each channel it took, and its answer. */
  function StepsLeft<T>(call: Call<T>): nat {
    if call.stage == Answered then 0 else |call.pending| + 1
  }

  predicate Delivers<T(==)>(e: Event<T>, c: CallId) {
    e == Send(c) || e == Answer(c)
  }

  /** The deliveries of call c among these events. */
  function Deliveries<T(==)>(es: seq<Event<T>>, c: CallId): nat {
    if es == [] then 0
    else Deliveries(es[..|es| - 1], c) + if Delivers(es[|es| - 1], c) then 1 else 0
  }

  lemma DeliveryStep<T(!new)>(zero: T, s: State<T>, e: Event<T>, c: CallId)
    requires Inv(s) && Enabled(s, e) && c in s.calls && !InFlight(s.calls[c])
    ensures var s' := Apply(zero, s, e);
            && c in s'.calls && !InFlight(s'.calls[c]) && s'.calls[c].dups == s.calls[c].dups
            && StepsLeft(s.calls[c]) == StepsLeft(s'.calls[c]) + if Delivers(e, c) then 1 else 0
  {
    if e.Do? || e.DoChan? {
      assert KeyOk(s, e.key);
    }
  }

  lemma {:induction false} DeliveriesCount<T(!new)>(zero: T, es: seq<Event<T>>, i: nat, c: CallId)
    requires Legal(zero, es) && i < |es| && es[i] == Complete(c)
    ensures var s := After(zero, es);
            && c in s.calls && !InFlight(s.calls[c])
            && Deliveries(es[i + 1..], c) + StepsLeft(s.calls[c]) == s.calls[c].dups + 1
    decreases |es|
  {
    var front, last := es[..|es| - 1], es[|es| - 1];
    RunKeepsInv(zero, front);
    if i == |front| {
      assert CallOk(After(zero, front), c);
      assert es[i + 1..] == [];
    } else {
      assert front[i] == es[i];
      DeliveriesCount(zero, front, i, c);
      DeliveryStep(zero, After(zero, front), last, c);
      assert es[i + 1..][..|es| - 1 - (i + 1)] == front[i + 1..] && es[i + 1..][|es| - 1 - (i + 1)] == last;
    }
  }

  lemma {:induction false} ReturnedUntilComplete<T(!new)>(zero: T, es: seq<Event<T>>, i: nat, c: CallId)
    requires Legal(zero, es) && i < |es| && FnEnd(zero, es[i], c).Some?
    ensures var s := After(zero, es);
            && c in s.calls && s.calls[c].stage != InFn
            && (s.calls[c].stage == Returned <==> forall j :: i < j < |es| ==> es[j] != Complete(c))
    decreases |es|
  {
    var front, last := es[..|es| - 1], es[|es| - 1];
    if i < |front| {
      assert front[i] == es[i];
      ReturnedUntilComplete(zero, front, i, c);
      assert forall j :: i < j < |front| ==> front[j] == es[j];
      EventKeepsResult(zero, After(zero, front), last, c);
    }
  }

  /** A call whose fn ended can complete until it has. */
  lemma CanComplete<T(!new)>(zero: T, es: seq<Event<T>>, i: nat, c: CallId)
    requires Legal(zero, es) && i < |es| && FnEnd(zero, es[i], c).Some?
    ensures Enabled(After(zero, es), Complete(c)) <==> forall j :: i < j < |es| ==> es[j] != Complete(c)
  {
    ReturnedUntilComplete(zero, es, i, c);
  }

  /**
   Once it has, its next delivery is always possible, and it is answered after exactly one delivery more than
   callers had joined it, whatever else happens in between.
   */
  lemma AnsweredInTime<T(!new)>(zero: T, es: seq<Event<T>>, j: nat, c: CallId)
    requires Legal(zero, es) && j < |es| && es[j] == Complete(c)
    ensures c in After(zero, es).calls
    ensures var call := After(zero, es).calls[c];
            && Deliveries(es[j + 1..], c) <= call.dups + 1
            && (call.stage == Answered <==> Deliveries(es[j + 1..], c) == call.dups + 1)
    ensures After(zero, es).calls[c].stage != Answered ==>
              Enabled(After(zero, es), Send(c)) || Enabled(After(zero, es), Answer(c))
  {
    DeliveriesCount(zero, es, j, c);
    RunKeepsInv(zero, es);
    if After(zero, es).calls[c].stage != Answered {
      NoSendBlocks(After(zero, es), c);
    }
  }

  // ---- The source's object ----

  /** All sends that a completed call still owes, one after the other. */
  ghost function SendAll<T(!new)>(zero: T, s: State<T>, c: CallId): State<T>
    requires Inv(s) && c in s.calls && s.calls[c].stage == Sending
    decreases |s.calls[c].pending|
  {
    if s.calls[c].pending == [] then s
    else
      NoSendBlocks(s, c);
      EventKeepsInv(zero, s, Send(c));
      SendAll(zero, Apply(zero, s, Send(c)), c)
  }

  class Singleflight<T(!new)> {
    const zero: T
    var m: map<Key, CallId>
    var calls: map<CallId, Call<T>>
    var boxes: map<ChanId, Box<T>>
    ghost var forgotten: set<Key>

    ghost function Snapshot(): State<T>
      reads this
    {
      State(m, calls, boxes, forgotten)
    }

    constructor (zero: T)
      ensures this.zero == zero && Snapshot() == Init() && Inv(Snapshot())
    {
      this.zero := zero;
      m, calls, boxes, forgotten := map[], map[], map[], {};
    }

    /** The section of Do under the mutex; c and ch are the identities of a new call and a new channel. */
    method EnterDo(key: Key, c: CallId, ch: ChanId)
      requires Inv(Snapshot()) && Enabled(Snapshot(), Do(key, c, ch))
      modifies this
      ensures Inv(Snapshot()) && Snapshot() == Apply(zero, old(Snapshot()), Do(key, c, ch))
    {
      EventKeepsInv(zero, Snapshot(), Do(key, c, ch));
      assert KeyOk(Snapshot(), key);
      if key in m {
        AddFollower(m[key], ch);
      } else {
        calls := calls[c := NewCall(key, ByDo, zero)];
        m := m[key := c];
      }
    }

    /** The section of DoChan under the mutex. */
    method EnterDoChan(key: Key, c: CallId, ch: ChanId)
      requires Inv(Snapshot()) && Enabled(Snapshot(), DoChan(key, c, ch))
      modifies this
      ensures Inv(Snapshot()) && Snapshot() == Apply(zero, old(Snapshot()), DoChan(key, c, ch))
    {
      EventKeepsInv(zero, Snapshot(), DoChan(key, c, ch));
      assert KeyOk(Snapshot(), key);
      if key in m {
        AddFollower(m[key], ch);
      } else {
        boxes := boxes[ch := Box(c, [], Waiting)];
        calls := calls[c := NewCall(key, ByChan(ch), zero)];
        m := m[key := c];
      }
    }

    method AddFollower(c: CallId, ch: ChanId)
      requires c in calls
      modifies this`calls, this`boxes
      ensures Snapshot() == Join(old(Snapshot()), c, ch)
    {
      var call := calls[c];
      boxes := boxes[ch := Box(c, [], Waiting)];
      calls := calls[c := call.(dups := call.dups + 1, chans := call.chans + [ch], joined := call.joined + {ch})];
    }

    method ForgetKey(key: Key)
      requires Inv(Snapshot())
      modifies this
      ensures Inv(Snapshot()) && Snapshot() == Apply(zero, old(Snapshot()), Forget(key))
    {
      EventKeepsInv(zero, Snapshot(), Forget(key));
      m := m - {key};
      forgotten := forgotten + {key};
    }

    /** The deferred section of execute under the mutex: off the map, and take the waiting channels. */
    method CompleteCall(c: CallId)
      requires Inv(Snapshot()) && Enabled(Snapshot(), Complete(c))
      modifies this`m, this`calls
      ensures Inv(Snapshot()) && Snapshot() == Apply(zero, old(Snapshot()), Complete(c))
    {
      EventKeepsInv(zero, Snapshot(), Complete(c));
      var call := calls[c];
      m := m - {call.key};
      calls := calls[c := call.(stage := Sending, pending := call.chans, chans := [])];
    }

    /** The loop of execute that sends the result to every channel it took. */
    method Dispatch(c: CallId)
      requires Inv(Snapshot()) && c in calls && calls[c].stage == Sending
      modifies this`calls, this`boxes
      ensures Inv(Snapshot()) && Snapshot() == SendAll(zero, old(Snapshot()), c)
      ensures c in calls && calls[c] == old(calls[c]).(pending := [])
      ensures forall ch :: ch in old(calls[c].pending) ==>
                ch in boxes && boxes[ch].sent == [Reply(calls[c].val, calls[c].err, true)]
    {
      var reply := Reply(calls[c].val, calls[c].err, true);
      ghost var joined := calls[c].joined;
      assert CallOk(Snapshot(), c);
      while calls[c].pending != []
        invariant Inv(Snapshot()) && c in calls && calls[c] == old(calls[c]).(pending := calls[c].pending)
        invariant calls[c].stage == Sending
        invariant SendAll(zero, Snapshot(), c) == SendAll(zero, old(Snapshot()), c)
        decreases |calls[c].pending|
      {
        NoSendBlocks(Snapshot(), c);
        EventKeepsInv(zero, Snapshot(), Send(c));
        var ch := calls[c].pending[0];
        boxes := boxes[ch := Push(boxes[ch], reply)];
        calls := calls[c := calls[c].(pending := calls[c].pending[1..])];
      }
      assert CallOk(Snapshot(), c);
      forall ch | ch in old(calls[c].pending)
        ensures ch in boxes && boxes[ch].sent == [Reply(calls[c].val, calls[c].err, true)]
      {
        assert ch in joined;
        assert BoxOk(Snapshot(), ch);
      }
    }

    /** The leader's return from Do, or the last send of DoChan's goroutine. */
    method AnswerLeader(c: CallId)
      requires Inv(Snapshot()) && Enabled(Snapshot(), Answer(c))
      modifies this`calls, this`boxes
      ensures Inv(Snapshot()) && Snapshot() == Apply(zero, old(Snapshot()), Answer(c))
    {
      EventKeepsInv(zero, Snapshot(), Answer(c));
      var call := calls[c];
      var reply := Reply(call.val, call.err, call.dups > 0);
      if call.leader.ByChan? {
        boxes := boxes[call.leader.ch := Push(boxes[call.leader.ch], reply)];
      }
      calls := calls[c := call.(stage := Answered, answer := Some(reply))];
    }

    /** fn returns, or panics and is recovered. */
    method EndFn(c: CallId, end: Event<T>)
      requires Inv(Snapshot()) && Enabled(Snapshot(), end) && FnEnd(zero, end, c).Some?
      modifies this`calls
      ensures Inv(Snapshot()) && Snapshot() == Apply(zero, old(Snapshot()), end)
    {
      EventKeepsInv(zero, Snapshot(), end);
      var call := calls[c];
      match end {
        case Return(_, val, err) => calls := calls[c := call.(stage := Returned, val := val, err := err)];
        case Panic(_, message) =>
          calls := calls[c := call.(stage := Returned, val := zero, err := Some(PanicError(message)))];
      }
    }

    /** The deferred function of execute up to its last send, without interference. */
    method Settle(c: CallId)
      requires Inv(Snapshot()) && Enabled(Snapshot(), Complete(c))
      modifies this`m, this`calls, this`boxes
      ensures Inv(Snapshot()) && c in calls
      ensures calls[c] == old(calls[c]).(stage := Sending, chans := [], pending := []) && calls[c].key !in m
      ensures forall ch :: ch in old(calls[c].chans) ==> ch in calls[c].joined
    {
      assert CallOk(Snapshot(), c);
      CompleteCall(c);
      Dispatch(c);
    }

    /** execute from the end of fn on, without interference: everyone who joined has the result. */
    method Execute(c: CallId, end: Event<T>) returns (answer: Reply<T>)
      requires Inv(Snapshot()) && Enabled(Snapshot(), end) && FnEnd(zero, end, c).Some?
      modifies this
      ensures Inv(Snapshot()) && c in calls && calls[c].answer == Some(answer) && calls[c].key !in m
      ensures (answer.val, answer.err) == FnEnd(zero, end, c).value
      ensures answer.shared == (old(calls[c].dups) > 0)
      ensures forall ch :: ch in old(calls[c].chans) ==>
                ch in boxes && boxes[ch].sent == [Reply(answer.val, answer.err, true)]
    {
      EndFn(c, end);
      Settle(c);
      NoSendBlocks(Snapshot(), c);
      AnswerLeader(c);
      answer := Reply(calls[c].val, calls[c].err, calls[c].dups > 0);
      assert CallOk(Snapshot(), c);
      forall ch | ch in old(calls[c].chans)
        ensures ch in boxes && boxes[ch].sent == [Reply(answer.val, answer.err, true)]
      {
        assert ch in calls[c].joined && BoxOk(Snapshot(), ch);
      }
    }
  }
}
