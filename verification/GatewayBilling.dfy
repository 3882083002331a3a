/**
 Results nobody waits for any more. When a worker finishes a non-streaming request whose caller has
 given up, both the reply send and the cancellation case of its `select` are ready; the post-LLM hooks
 run for the request if and only if the cancellation case is taken.
 */
module GatewayBilling {
  import opened Options
  import opened MessageStore
  import opened QueueLife
  import opened Gateway
  import opened GatewayDuties
  import opened GatewayCallers
  import opened GatewayFlow
  import opened GatewayTheorems
  import opened GatewayWindow

  /** Worker `w` serves a message whose non-streaming caller `r` has given up. */
  ghost predicate ServesAbandoned(s: State, w: WId, r: Req) {
    && WorkerAt(s, w, Serving) && InHandOf(s, ByWorker(w)) && OwnerOf(s, ByWorker(w)) == r
    && r in s.callers && s.callers[r].Abandoned? && r !in s.streaming
  }

  /** The caller gave up and its message is settled: nothing about the request changes any more. */
  ghost predicate IsOver(s: State, r: Req) {
    r in s.callers && s.callers[r].Abandoned? && r in s.log && s.log[r] != [] && r in s.hooks
  }

  ghost predicate SameRecordOf(s: State, s': State, r: Req) {
    && r in s.log && r in s.hooks && r in s'.log && r in s'.hooks
    && s'.log[r] == s.log[r] && s'.hooks[r] == s.hooks[r]
  }

  lemma CallLeavesRecord(s: State, x: Req, l: CallStep, r: Req)
    requires CanCall(s, x, l) && IsOver(s, r)
    ensures SameRecordOf(s, AfterCall(s, x, l), r)
  {
    hide CanAcquire, Acquire, Offer, Return, Recycle, Receive, IsRouted, Closing, IsDone, InHandOf, HasRoom;
  }

  lemma SettleLeavesRecord(s: State, h: Holder, reply: set<Chan>, fate: Fate, bill: bool, r: Req)
    requires Base(s) && IsOver(s, r) && LogsFor(s, h) && !h.ByProducer?
    ensures SameRecordOf(s, SettleBy(s, h, reply, fate, bill), r)
  {
    hide Base;
    HeldIsSent(s, h);
  }

  lemma WorkLeavesRecord(s: State, w: WId, l: WorkStep, r: Req)
    requires CanWork(s, w, l) && Base(s) && IsOver(s, r)
    ensures SameRecordOf(s, AfterWork(s, w, l), r)
  {
    hide Base, CanLife, AfterLife, WorkLife, CanReply, SettleBy, HasItem, WorkerAt;
    var h := ByWorker(w);
    match l
    case Answer(c) => SettleLeavesRecord(s, h, {c}, Replied(c.port), false, r);
    case CallerLeft => SettleLeavesRecord(s, h, {}, CallerGone, OwnerOf(s, h) !in s.streaming, r);
    case TimeOut(c) => SettleLeavesRecord(s, h, {}, TimedOut, false, r);
    case Panic => SettleLeavesRecord(s, h, {}, Dropped, false, r);
    case _ =>
  }

  lemma DrainLeavesRecord(s: State, h: Holder, l: DrainStep, r: Req)
    requires CanDrain(s, h, l) && Base(s) && DutyOk(s, h) && IsOver(s, r)
    ensures SameRecordOf(s, AfterDrain(s, h, l), r)
  {
    hide Base, CanReply, SettleBy, HasItem, DutyOf;
    match l
    case DrainReply(c) => SettleLeavesRecord(s, h, {c}, Replied(c.port), false, r);
    case DrainCallerLeft => SettleLeavesRecord(s, h, {}, CallerGone, false, r);
    case _ =>
  }

  lemma MoveLeavesRecord(s: State, p: Provider, l: MoveStep, r: Req)
    requires CanMove(s, p, l) && IsOver(s, r)
    ensures SameRecordOf(s, AfterMove(s, p, l), r)
  {
    hide CanLife, AfterLife, MoveLife;
  }

  lemma ControlLeavesRecord(s: State, c: ControlStep, r: Req)
    requires CanControl(s, c) && IsOver(s, r)
    ensures SameRecordOf(s, AfterControl(s, c), r)
  {
    hide CanLife, AfterLife, ControlLife, Armed;
  }

  lemma OverStays(s: State, l: Label, r: Req)
    requires Inv(s) && Enabled(s, l) && IsOver(s, r)
    ensures IsOver(Next(s, l), r) && SameRecordOf(s, Next(s, l), r)
  {
    hide Base, LifeInv, DutyOk, QueuesMatch, CapacityOk, ArmedOk, QuietOk, LateOk, FlowOk, OrderOk;
    hide CanCall, CanWork, CanDrain, CanMove, CanControl, AfterCall, AfterWork, AfterDrain, AfterMove, AfterControl;
    StepGoesForward(s, l, r);
    match l
    case Call(x, c) => CallLeavesRecord(s, x, c, r);
    case Work(w, c) => WorkLeavesRecord(s, w, c, r);
    case Drain(h, c) => assert DutyOk(s, h); DrainLeavesRecord(s, h, c, r);
    case Move(p, c) => MoveLeavesRecord(s, p, c, r);
    case Control(c) => ControlLeavesRecord(s, c, r);
  }

  lemma {:induction false} OverForever(s: State, ls: seq<Label>, r: Req)
    requires Inv(s) && IsOver(s, r) && CanRun(s, ls)
    ensures IsOver(AfterRun(s, ls), r) && SameRecordOf(s, AfterRun(s, ls), r)
    decreases |ls|
  {
    hide Inv, Enabled, Next;
    if ls != [] {
      OverForever(s, ls[..|ls| - 1], r);
      RunKeepsInv(s, ls[..|ls| - 1]);
      OverStays(AfterRun(s, ls[..|ls| - 1]), ls[|ls| - 1], r);
    }
  }

  /** Whatever the provider produced, result or error, the reply can be sent and the cancellation case is ready too. */
  lemma BothCasesReady(ls: seq<Label>, w: WId, r: Req, port: Port)
    requires IsHistory(ls) && ServesAbandoned(StateAfter(ls), w, r) && port in {Response, Failure}
    ensures exists c: Chan :: c.port == port && Enabled(StateAfter(ls), Work(w, Answer(c)))
    ensures Enabled(StateAfter(ls), Work(w, CallerLeft))
  {
    hide Base, LifeInv, DutiesOk, QueuesMatch, CapacityOk, ArmedOk, QuietOk, LateOk, FlowOk, OrderOk, Answerable, IsHistory, StateAfter;
    var s, h := StateAfter(ls), ByWorker(w);
    AlwaysInv(ls);
    AlwaysAnswerable(ls);
    AlwaysPast(ls);
    HeldHasOwner(s, h);
    HeldIsSent(s, h);
    var c := ChannelOf(s, h, port);
    assert Enabled(s, Work(w, Answer(c)));
  }

  lemma SettlingEffect(s: State, w: WId, l: WorkStep, r: Req)
    requires Base(s) && ServesAbandoned(s, w, r) && CanWork(s, w, l)
    ensures l.Answer? || l.CallerLeft? || l.Panic?
    ensures IsOver(AfterWork(s, w, l), r) && AfterWork(s, w, l).hooks[r] == if l.CallerLeft? then 1 else 0
  {
    hide Base, CanLife, AfterLife, WorkLife, CanReply, Settle, HasItem;
    if l.TimeOut? { TimeOutImpossible(s, w, l.c); }
    HeldHasOwner(s, ByWorker(w));
    HeldIsSent(s, ByWorker(w));
  }

  ghost predicate BilledForever(s: State, r: Req, times: nat) {
    forall more :: CanRun(s, more) ==> r in AfterRun(s, more).hooks && AfterRun(s, more).hooks[r] == times
  }

  /**
   The worker's next step settles the request, and the hooks have run once in every continuation if and
   only if that step was the cancellation case; otherwise they never run.
   */
  lemma BilledIff(ls: seq<Label>, w: WId, r: Req, l: WorkStep)
    requires IsHistory(ls) && ServesAbandoned(StateAfter(ls), w, r) && Enabled(StateAfter(ls), Work(w, l))
    ensures BilledForever(Next(StateAfter(ls), Work(w, l)), r, 1) <==> l.CallerLeft?
    ensures !l.CallerLeft? ==> BilledForever(Next(StateAfter(ls), Work(w, l)), r, 0)
  {
    hide Inv, IsHistory, StateAfter, ServesAbandoned, IsOver, CanWork, AfterWork, CanRun, AfterRun;
    var s := StateAfter(ls);
    AlwaysInv(ls);
    SettleFacts(s, w, l, r);
    StepKeepsInv(s, Work(w, l));
    var t := Next(s, Work(w, l));
    var times := if l.CallerLeft? then 1 else 0;
    forall more | CanRun(t, more) ensures r in AfterRun(t, more).hooks && AfterRun(t, more).hooks[r] == times {
      OverForever(t, more, r);
    }
    assert BilledForever(t, r, times);
    StandsStill(t);
  }

  lemma SettleFacts(s: State, w: WId, l: WorkStep, r: Req)
    requires Inv(s) && ServesAbandoned(s, w, r) && CanWork(s, w, l)
    ensures IsOver(AfterWork(s, w, l), r) && r in AfterWork(s, w, l).hooks
    ensures AfterWork(s, w, l).hooks[r] == if l.CallerLeft? then 1 else 0
  {
    hide Base, CanWork, AfterWork, ServesAbandoned;
    SettlingEffect(s, w, l, r);
  }

  lemma StandsStill(s: State)
    ensures CanRun(s, []) && AfterRun(s, []) == s
  {
    hide Enabled, Next;
  }
}
