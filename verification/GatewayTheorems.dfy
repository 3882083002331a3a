/**
 What holds in every reachable state of the gateway, in every interleaving of callers, workers,
 transfers, drain loops, updates, removals and Shutdown, and what the documented window leaves open.
 */
module GatewayTheorems {
  import opened Options
  import opened Sequences
  import opened MessageStore
  import opened QueueLife
  import opened Gateway
  import opened GatewayDuties
  import opened GatewayCallers
  import opened GatewayFlow

  ghost predicate Inv(s: State) {
    && Base(s) && LifeInv(s.lf) && DutiesOk(s) && QueuesMatch(s) && CapacityOk(s)
    && ArmedOk(s) && QuietOk(s) && LateOk(s) && FlowOk(s) && OrderOk(s)
  }

  lemma InitialInv()
    ensures Inv(INITIAL)
  {
    InitialLifeOk();
    forall q, q' ensures InOrder(INITIAL, q, q') { }
    forall h ensures DutyOk(INITIAL, h) { }
  }

  lemma LifeInvKept(s: State, l: Label)
    requires Enabled(s, l) && LifeInv(s.lf)
    ensures LifeInv(Next(s, l).lf)
  {
    hide Enabled, Next, LifeInv, LifeOf, CanLife, AfterLife;
    LifeOfStep(s, l);
    if LifeOf(s, l).Some? { LifeKept(s.lf, LifeOf(s, l).value); }
  }

  lemma BaseKept(s: State, l: Label)
    requires Enabled(s, l) && Base(s) && DutiesOk(s) && QueuesMatch(s) && DesksOk(s.lf.desks)
    ensures Base(Next(s, l))
  {
    hide Base, DutiesOk, QueuesMatch, DesksOk, CanCall, CanWork, CanDrain, CanMove, CanControl;
    hide AfterCall, AfterWork, AfterDrain, AfterMove, AfterControl;
    match l
    case Call(r, c) => BaseAfterCall(s, r, c);
    case Work(w, c) => BaseAfterWork(s, w, c);
    case Drain(h, c) => BaseAfterDrain(s, h, c);
    case Move(p, c) => BaseAfterMove(s, p, c);
    case Control(c) => BaseAfterControl(s, c);
  }

  lemma DutiesKept(s: State, l: Label)
    requires Enabled(s, l) && DutiesOk(s) && QueuesMatch(s) && DesksOk(s.lf.desks)
    ensures DutiesOk(Next(s, l))
  {
    hide DutiesOk, QueuesMatch, DesksOk, CanCall, CanWork, CanDrain, CanMove, CanControl;
    hide AfterCall, AfterWork, AfterDrain, AfterMove, AfterControl;
    match l
    case Call(r, c) => DutiesAfterCall(s, r, c);
    case Work(w, c) => DutiesAfterWork(s, w, c);
    case Drain(h, c) => DutiesAfterDrain(s, h, c);
    case Move(p, c) => DutiesAfterMove(s, p, c);
    case Control(c) => DutiesAfterControl(s, c);
  }

  lemma FlowStep(s: State, l: Label)
    requires Enabled(s, l) && Base(s) && DutiesOk(s) && QueuesMatch(s) && DesksOk(s.lf.desks) && FlowOk(s)
    requires Steps(s, Next(s, l), EffectOf(s, l))
    ensures FlowOk(Next(s, l))
  {
    hide Base, QueuesMatch, DesksOk, FlowOk, Enabled, Next, EffectOf, Has, LifeGoesOn, CallersGoOn, OffersChecked, OwnersKept, DutyOk, SourceOf;
    var s', e := Next(s, l), EffectOf(s, l);
    EffectGuards(s, s', e);
    if e.Puts? { UpdateQueuesExist(s, e.p); }
    forall h | h in s.st.at.held && h in s'.st.at.held && !h.ByProducer? ensures SourceOf(s', h) == SourceOf(s, h) {
      assert DutyOk(s, h);
      SourceKept(s, l, h);
    }
    FlowKept(s, s', e);
  }

  /** One step, whatever it is, keeps everything. */
  lemma StepKeepsInv(s: State, l: Label)
    requires Inv(s) && Enabled(s, l)
    ensures Inv(Next(s, l))
  {
    hide Base, DesksOk, CountOk, OpenOk, QuietingOk, DutiesOk, QueuesMatch, CapacityOk, ArmedOk, QuietOk, LateOk, FlowOk, OrderOk;
    hide Enabled, Next, EffectOf, Has, Background, LifeGoesOn;
    var s', e := Next(s, l), EffectOf(s, l);
    LifeInvKept(s, l);
    BaseKept(s, l);
    DutiesKept(s, l);
    StepIsStep(s, l);
    QueuesKept(s, s', e);
    ArmedKept(s, s', e);
    QuietKept(s, s', e);
    LateKept(s, s', e);
    FlowStep(s, l);
    OrderKept(s, l);
  }

  // ----- runs -----

  ghost predicate CanRun(s: State, ls: seq<Label>)
    decreases |ls|, 0
  {
    ls == [] || (CanRun(s, ls[..|ls| - 1]) && Enabled(AfterRun(s, ls[..|ls| - 1]), ls[|ls| - 1]))
  }

  ghost function AfterRun(s: State, ls: seq<Label>): State
    requires CanRun(s, ls)
    decreases |ls|, 1
  {
    if ls == [] then s else Next(AfterRun(s, ls[..|ls| - 1]), ls[|ls| - 1])
  }

  lemma {:induction false} RunKeepsInv(s: State, ls: seq<Label>)
    requires Inv(s) && CanRun(s, ls)
    ensures Inv(AfterRun(s, ls))
    decreases |ls|
  {
    hide Inv, Enabled, Next;
    if ls != [] {
      RunKeepsInv(s, ls[..|ls| - 1]);
      StepKeepsInv(AfterRun(s, ls[..|ls| - 1]), ls[|ls| - 1]);
    }
  }

  ghost predicate IsHistory(ls: seq<Label>) { CanRun(INITIAL, ls) }

  ghost function StateAfter(ls: seq<Label>): State
    requires IsHistory(ls)
  {
    AfterRun(INITIAL, ls)
  }

  lemma AlwaysInv(ls: seq<Label>)
    requires IsHistory(ls)
    ensures Inv(StateAfter(ls))
  {
    hide Inv;
    InitialInv();
    RunKeepsInv(INITIAL, ls);
  }

  // ----- one place, bounded queues, first in first out -----

  /**
   Each message is in exactly one place: the pool, one goroutine's hand, one slot of one queue, or
   settled. No queue exceeds its capacity, and what was received from it is a prefix of what was sent.
   */
  lemma EveryMessageInOnePlace(ls: seq<Label>, m: Msg)
    requires IsHistory(ls) && m in StateAfter(ls).st.at.home
    ensures var at := StateAfter(ls).st.at;
            && (exists pl :: AtPlace(at, m, pl) && forall other :: AtPlace(at, m, other) ==> other == pl)
            && (forall q :: q in at.buffers ==> multiset(at.buffers[q].items)[m] <= 1)
  {
    hide LifeInv, DutiesOk, OrderOk, FlowOk, LateOk, CallersOk, OwnersOk, WiresOk, FullOk, Linked, AtPlace, IsHistory, StateAfter;
    AlwaysInv(ls);
    var s := StateAfter(ls);
    ExactlyOnePlace(s.st, m);
    forall q | q in s.st.at.buffers ensures multiset(s.st.at.buffers[q].items)[m] <= 1 {
      assert BufferOk(s.st.at.buffers[q]);
      DistinctCount(s.st.at.buffers[q].items, m);
    }
  }

  lemma {:induction false} DistinctCount(s: seq<Msg>, m: Msg)
    requires Distinct(s)
    ensures multiset(s)[m] <= 1
  {
    if s != [] {
      var t := s[..|s| - 1];
      assert s == t + [s[|s| - 1]];
      DistinctCount(t, m);
      assert s[|s| - 1] !in t;
    }
  }

  /** Nothing lies anywhere unaccounted: every message in a buffer, hand, pool or settled has been allocated. */
  lemma QueuesAreBoundedFifos(ls: seq<Label>, q: QId)
    requires IsHistory(ls) && q in StateAfter(ls).st.at.buffers
    ensures var b := StateAfter(ls).st.at.buffers[q];
            |b.items| <= b.capacity && b.sent == b.received + b.items
    ensures forall m :: m in StateAfter(ls).st.at.buffers[q].items ==> m in StateAfter(ls).st.at.home
  {
    hide LifeInv, DutiesOk, OrderOk, FlowOk, LateOk, CallersOk, OwnersOk, WiresOk, FullOk, Linked, IsHistory, StateAfter;
    AlwaysInv(ls);
    assert BufferOk(StateAfter(ls).st.at.buffers[q]);
  }

  /** What updates move from `q` to `q'` leaves `q` and enters `q'` in the same relative order. */
  lemma TransferKeepsOrder(ls: seq<Label>, q: QId, q': QId)
    requires IsHistory(ls) && q in StateAfter(ls).st.at.buffers && q' in StateAfter(ls).st.at.buffers
    ensures var s := StateAfter(ls);
            && IsSubsequence(MovedTo(s, q, q'), s.st.at.buffers[q].received)
            && IsSubsequence(MovedTo(s, q, q'), s.st.at.buffers[q'].sent)
  {
    hide Base, LifeInv, DutiesOk, FlowOk, LateOk, IsSubsequence, IsHistory, StateAfter;
    AlwaysInv(ls);
    assert InOrder(StateAfter(ls), q, q');
  }

  /** Every request that ever went through a queue is still at it, was settled, or was moved to a queue that accounts for it. */
  lemma EveryRequestIsAccountedFor(ls: seq<Label>, q: QId, r: Req)
    requires IsHistory(ls) && q in StateAfter(ls).hist && r in StateAfter(ls).hist[q].through
    ensures var s := StateAfter(ls); StillAt(s, q, r) || IsSettled(s, r) || WasMoved(s, q, r)
  {
    hide Base, LifeInv, DutiesOk, OrderOk, LateOk, StillAt, IsSettled, WasMoved, IsHistory, StateAfter;
    AlwaysInv(ls);
    assert Accounted(StateAfter(ls), q, r);
  }

  // ----- replies, hooks and the pool -----

  /** A request is settled at most once, and the post-LLM hooks run at most once after it was enqueued. */
  lemma AtMostOneReply(ls: seq<Label>, r: Req)
    requires IsHistory(ls) && r in StateAfter(ls).callers
    ensures var s := StateAfter(ls); r in s.log && r in s.hooks && |s.log[r]| <= 1 && s.hooks[r] <= 1
  {
    hide Valid, OwnersOk, LifeInv, DutiesOk, OrderOk, FlowOk, LateOk, IsHistory, StateAfter;
    AlwaysInv(ls);
    assert CallerOk(StateAfter(ls), r);
  }

  /** Steps with which some goroutine is finished with the message it has in hand. */
  predicate IsSettling(l: Label, h: Holder) {
    match l
    case Work(w, c) => h == ByWorker(w) && (c.Answer? || c.CallerLeft? || c.TimeOut? || c.Panic?)
    case Drain(x, c) => h == x && (c.DrainReply? || c.DrainCallerLeft?)
    case _ => false
  }

  /**
   Whenever a worker or a drain loop settles a message, the request has not been settled before and
   every one-slot reply channel of the message is empty, so its send cannot block: the five-second
   escape is never taken.
   */
  lemma ReplySlotIsFree(ls: seq<Label>, l: Label, h: Holder)
    requires IsHistory(ls) && Enabled(StateAfter(ls), l) && IsSettling(l, h)
    ensures var s := StateAfter(ls);
            LogsFor(s, h) && s.log[OwnerOf(s, h)] == [] && s.hooks[OwnerOf(s, h)] == 0 && s.st.rp.wires[MsgOf(s, h)] !! s.st.rp.full
    ensures !(l.Work? && l.work.TimeOut?)
  {
    hide Base, LifeInv, OrderOk, FlowOk, LateOk, IsHistory, StateAfter, CanLife, DutyOf;
    AlwaysInv(ls);
    var s := StateAfter(ls);
    assert DutyOk(s, h);
    SettlingLogs(s, l, h);
    HeldIsSent(s, h);
    if l.Work? && l.work.TimeOut? { TimeOutImpossible(s, l.w, l.work.c); }
  }

  lemma SettlingLogs(s: State, l: Label, h: Holder)
    requires Enabled(s, l) && IsSettling(l, h)
    ensures LogsFor(s, h)
  {
    hide CanLife;
  }

  lemma TimeOutImpossible(s: State, w: WId, c: Chan)
    requires Base(s)
    ensures !CanWork(s, w, TimeOut(c))
  {
    hide CanWork, CallersOk, OwnersOk;
    ReplyNeverTimesOut(s, w, c);
  }

  /** No message is in the pool while a queue or any goroutine still has it, and pooled messages have no channels. */
  lemma PooledIsFree(ls: seq<Label>, m: Msg)
    requires IsHistory(ls) && m in StateAfter(ls).st.at.pool
    ensures var st := StateAfter(ls).st;
            && (forall q :: q in st.at.buffers ==> m !in st.at.buffers[q].items)
            && (forall h :: h in st.at.held ==> st.at.held[h] != m)
            && m !in st.rp.wires && m !in st.rp.owner
  {
    hide LifeInv, DutiesOk, OrderOk, FlowOk, LateOk, CallersOk, OwnersOk, FullOk, BuffersOk, ArmedOk, QuietOk, CapacityOk, QueuesMatch;
    hide IsHistory, StateAfter;
    AlwaysInv(ls);
  }

  // ----- nobody is stuck with a message in hand -----

  ghost predicate HasPort(cs: set<Chan>, port: Port) { exists c :: c in cs && c.port == port }

  /** Every message outside the pool has a response and an error channel. */
  ghost predicate Answerable(s: State) {
    forall m :: m in s.st.rp.wires ==> HasPort(s.st.rp.wires[m], Response) && HasPort(s.st.rp.wires[m], Failure)
  }

  lemma WiresAfterCall(s: State, r: Req, l: CallStep)
    requires CanCall(s, r, l) && Answerable(s)
    ensures Answerable(AfterCall(s, r, l))
  {
    hide IsRouted, Closing, IsDone, Offer;
  }

  /** Nobody but a caller changes the callers, their contexts or the wiring of messages. */
  lemma CallersAfterWork(s: State, w: WId, l: WorkStep)
    requires CanWork(s, w, l)
    ensures AfterWork(s, w, l).st.rp.wires == s.st.rp.wires && AfterWork(s, w, l).callers == s.callers
    ensures AfterWork(s, w, l).cancelled == s.cancelled && AfterWork(s, w, l).streaming == s.streaming
  {
    hide CanLife, AfterLife, WorkLife, CanReply, HasItem;
  }

  lemma CallersAfterDrain(s: State, h: Holder, l: DrainStep)
    requires CanDrain(s, h, l)
    ensures AfterDrain(s, h, l).st.rp.wires == s.st.rp.wires && AfterDrain(s, h, l).callers == s.callers
    ensures AfterDrain(s, h, l).cancelled == s.cancelled && AfterDrain(s, h, l).streaming == s.streaming
  {
  }

  lemma CallersAfterMove(s: State, p: Provider, l: MoveStep)
    requires CanMove(s, p, l)
    ensures AfterMove(s, p, l).st.rp.wires == s.st.rp.wires && AfterMove(s, p, l).callers == s.callers
    ensures AfterMove(s, p, l).cancelled == s.cancelled && AfterMove(s, p, l).streaming == s.streaming
  {
    hide CanLife, AfterLife, MoveLife;
  }

  lemma CallersAfterControl(s: State, c: ControlStep)
    requires CanControl(s, c)
    ensures AfterControl(s, c).st.rp.wires == s.st.rp.wires && AfterControl(s, c).callers == s.callers
    ensures AfterControl(s, c).cancelled == s.cancelled && AfterControl(s, c).streaming == s.streaming
  {
    hide CanLife, AfterLife, ControlLife;
  }

  lemma CallersAfterRest(s: State, l: Label)
    requires Enabled(s, l) && !l.Call?
    ensures Next(s, l).st.rp.wires == s.st.rp.wires && Next(s, l).callers == s.callers
    ensures Next(s, l).cancelled == s.cancelled && Next(s, l).streaming == s.streaming
  {
    hide CanCall, CanWork, CanDrain, CanMove, CanControl, AfterCall, AfterWork, AfterDrain, AfterMove, AfterControl;
    match l
    case Work(w, c) => CallersAfterWork(s, w, c);
    case Drain(h, c) => CallersAfterDrain(s, h, c);
    case Move(p, c) => CallersAfterMove(s, p, c);
    case Control(c) => CallersAfterControl(s, c);
  }

  lemma {:induction false} AlwaysAnswerable(ls: seq<Label>)
    requires IsHistory(ls)
    ensures Answerable(StateAfter(ls))
    decreases |ls|
  {
    hide Answerable, CanCall, CanWork, CanDrain, CanMove, CanControl, AfterCall, AfterWork, AfterDrain, AfterMove, AfterControl;
    if ls == [] {
      InitialAnswerable();
    } else {
      var s, l := StateAfter(ls[..|ls| - 1]), ls[|ls| - 1];
      AlwaysAnswerable(ls[..|ls| - 1]);
      if l.Call? { WiresAfterCall(s, l.r, l.call); } else { CallersAfterRest(s, l); SameAnswerable(s, Next(s, l)); }
    }
  }

  lemma InitialAnswerable()
    ensures Answerable(INITIAL)
  {
  }

  lemma SameAnswerable(s: State, s': State)
    requires Answerable(s) && s'.st.rp.wires == s.st.rp.wires
    ensures Answerable(s')
  {
  }

  /**
   A worker serving a message, and a drain loop that has taken one, can always send an error reply at
   once: no reply send ever waits for the caller.
   */
  lemma NobodyIsStuck(ls: seq<Label>, h: Holder)
    requires IsHistory(ls) && h in StateAfter(ls).st.at.held
    requires h in StateAfter(ls).draining || (h.ByWorker? && WorkerAt(StateAfter(ls), h.w, Serving))
    ensures || (h in StateAfter(ls).draining && exists c :: Enabled(StateAfter(ls), Drain(h, DrainReply(c))))
            || (h.ByWorker? && exists c :: Enabled(StateAfter(ls), Work(h.w, Answer(c))))
  {
    hide LifeInv, OrderOk, FlowOk, LateOk, ArmedOk, QuietOk, IsHistory, StateAfter, CallersOk, OwnersOk, PlacesOk, FullOk, WiresOk, Answerable;
    var s := StateAfter(ls);
    AlwaysInv(ls);
    AlwaysAnswerable(ls);
    assert DutyOk(s, h);
    HeldAndFree(s, h);
    var c := ChannelOf(s, h, Failure);
    if h in s.draining {
      assert Enabled(s, Drain(h, DrainReply(c)));
    } else {
      assert Enabled(s, Work(h.w, Answer(c)));
    }
  }

  lemma ChannelOf(s: State, h: Holder, port: Port) returns (c: Chan)
    requires Answerable(s) && InHandOf(s, h) && port in {Response, Failure}
    ensures c in s.st.rp.wires[MsgOf(s, h)] && c.port == port
  {
    assert HasPort(s.st.rp.wires[MsgOf(s, h)], port);
    c :| c in s.st.rp.wires[MsgOf(s, h)] && c.port == port;
  }

  lemma HeldAndFree(s: State, h: Holder)
    requires Base(s) && DutyOk(s, h) && h in s.st.at.held && (h in s.draining || h.ByWorker?)
    ensures LogsFor(s, h) && s.st.rp.wires[MsgOf(s, h)] !! s.st.rp.full
  {
    hide FullOk, BuffersOk, QueuedOk, PoolOk, DutyOf;
    assert OwnerOk(s, s.st.at.held[h]);
    assert CallerOk(s, s.st.rp.owner[s.st.at.held[h]]);
    assert LogsFor(s, h);
    HeldIsSent(s, h);
  }

  // ----- callers do not go back -----

  /** The caller's message was sent into some queue, or the caller is done. */
  predicate HasEntered(c: Caller) { c.Awaiting? || c.Answered? || c.Abandoned? || c.Returned? }

  /** Requests that went through a queue have left the enqueueing part; a caller gives up only with its context done. */
  ghost predicate PastOk(s: State) {
    && (forall q, r :: q in s.hist && r in s.hist[q].through ==> r in s.callers && HasEntered(s.callers[r]))
    && (forall r :: r in s.callers && s.callers[r].Abandoned? ==> r in s.cancelled)
  }

  ghost predicate GoesForward(s: State, s': State, r: Req)
    requires r in s.callers
  {
    && r in s'.callers && (HasEntered(s.callers[r]) ==> HasEntered(s'.callers[r]))
    && (s.callers[r].Abandoned? ==> s'.callers[r] == s.callers[r])
    && (s'.callers[r].Abandoned? ==> s.callers[r].Abandoned? || r in s'.cancelled)
    && (r in s.cancelled ==> r in s'.cancelled) && (r in s'.streaming <==> r in s.streaming)
  }

  lemma CallGoesForward(s: State, r: Req, l: CallStep, x: Req)
    requires CanCall(s, r, l) && x in s.callers
    ensures GoesForward(s, AfterCall(s, r, l), x)
  {
    hide CanAcquire, Acquire, Offer, Return, Recycle, Receive, IsRouted, Closing, IsDone, InHandOf, HasRoom;
  }

  lemma StepGoesForward(s: State, l: Label, x: Req)
    requires Enabled(s, l) && x in s.callers
    ensures GoesForward(s, Next(s, l), x)
  {
    hide CanCall, CanWork, CanDrain, CanMove, CanControl, AfterCall, AfterWork, AfterDrain, AfterMove, AfterControl;
    if l.Call? { CallGoesForward(s, l.r, l.call, x); } else { CallersAfterRest(s, l); }
  }

  lemma NewCallerStarts(s: State, r: Req, l: CallStep, x: Req)
    requires CanCall(s, r, l) && x !in s.callers && x in AfterCall(s, r, l).callers
    ensures !AfterCall(s, r, l).callers[x].Abandoned?
  {
    hide CanAcquire, Acquire, Offer, Return, Recycle, Receive, IsRouted, Closing, IsDone, InHandOf, HasRoom;
  }

  lemma NewCaller(s: State, l: Label, x: Req)
    requires Enabled(s, l) && x !in s.callers && x in Next(s, l).callers
    ensures !Next(s, l).callers[x].Abandoned?
  {
    hide CanCall, CanWork, CanDrain, CanMove, CanControl, AfterCall, AfterWork, AfterDrain, AfterMove, AfterControl;
    if l.Call? { NewCallerStarts(s, l.r, l.call, x); } else { CallersAfterRest(s, l); }
  }

  /** A request enters the account of a queue with a send, or with a move of its message. */
  lemma NewThroughIsSent(s: State, s': State, e: Effect, q: QId, r: Req)
    requires Base(s) && Has(s, s', e) && CallersGoOn(s, s')
    requires q in s'.hist && r in s'.hist[q].through && !(q in s.hist && r in s.hist[q].through)
    ensures r in s'.callers && HasEntered(s'.callers[r])
  {
    hide Base, Has, CallersGoOn, SourceOf;
    NewThrough(s, s', e, q, r);
  }

  lemma PastKept(s: State, l: Label)
    requires Inv(s) && PastOk(s) && Enabled(s, l)
    ensures PastOk(Next(s, l))
  {
    hide Base, LifeInv, DutiesOk, QueuesMatch, CapacityOk, ArmedOk, QuietOk, LateOk, FlowOk, OrderOk, HasEntered;
    hide Enabled, Next, EffectOf, Has, CallersGoOn, OffersChecked, OwnersKept;
    var s' := Next(s, l);
    StepHas(s, l);
    forall q, r | q in s'.hist && r in s'.hist[q].through ensures r in s'.callers && HasEntered(s'.callers[r]) {
      if q in s.hist && r in s.hist[q].through { StepGoesForward(s, l, r); } else { NewThroughIsSent(s, s', EffectOf(s, l), q, r); }
    }
    forall r | r in s'.callers && s'.callers[r].Abandoned? ensures r in s'.cancelled {
      if r in s.callers { StepGoesForward(s, l, r); } else { NewCaller(s, l, r); }
    }
  }

  lemma {:induction false} AlwaysPast(ls: seq<Label>)
    requires IsHistory(ls)
    ensures PastOk(StateAfter(ls))
    decreases |ls|
  {
    hide PastOk, Inv, Enabled, Next;
    if ls == [] {
      InitialPast();
    } else {
      AlwaysPast(ls[..|ls| - 1]);
      AlwaysInv(ls[..|ls| - 1]);
      PastKept(StateAfter(ls[..|ls| - 1]), ls[|ls| - 1]);
    }
  }

  lemma InitialPast()
    ensures PastOk(INITIAL)
  {
  }

  // ----- removal and shutdown -----

  /** When RemoveProvider deletes the routing entry, no worker of any generation of the provider runs. */
  lemma RemovalIsLast(ls: seq<Label>, p: Provider, q: QId, k: nat)
    requires IsHistory(ls) && Enabled(StateAfter(ls), Control(Plain(OnDesk(p, Unroute))))
    requires q.p == p && IsQueue(StateAfter(ls).lf, q) && k in QueueOf(StateAfter(ls).lf, q).crew
    ensures QueueOf(StateAfter(ls).lf, q).crew[k] == Gone
  {
    hide Base, DutiesOk, OrderOk, FlowOk, LateOk, DeskInv, CountOk, OpenOk, QuietingOk, IsHistory, StateAfter;
    AlwaysInv(ls);
    RemovalWaitsForEveryGeneration(StateAfter(ls).lf.desks[p], q.n, k);
  }

  /** Once Shutdown has finished waiting, no worker of any provider runs, if none was created meanwhile. */
  lemma ShutdownIsLast(ls: seq<Label>, q: QId, k: nat)
    requires IsHistory(ls) && (StateAfter(ls).lf.shutdown.SSweeping? || StateAfter(ls).lf.shutdown.SComplete?)
    requires !StateAfter(ls).lf.lateCreate && IsQueue(StateAfter(ls).lf, q) && k in QueueOf(StateAfter(ls).lf, q).crew
    ensures QueueOf(StateAfter(ls).lf, q).crew[k] == Gone
  {
    hide Base, DutiesOk, OrderOk, FlowOk, LateOk, LifeInv, IsHistory, StateAfter;
    AlwaysInv(ls);
    ShutdownWaitsForEveryWorker(StateAfter(ls).lf, q, k);
  }

  /** A worker, even one that panicked, leaves only a signalled queue: an open queue keeps all its workers. */
  lemma OpenQueueKeepsItsWorkers(ls: seq<Label>, q: QId, k: nat)
    requires IsHistory(ls) && IsQueue(StateAfter(ls).lf, q) && !Closing(StateAfter(ls), q) && k in QueueOf(StateAfter(ls).lf, q).crew
    ensures QueueOf(StateAfter(ls).lf, q).crew[k] in {Idle, Serving, Panicked}
  {
    hide Base, DutiesOk, OrderOk, FlowOk, LateOk, CountOk, OpenOk, QuietingOk, CtlOk, RetiredOk, Placed, IsHistory, StateAfter;
    AlwaysInv(ls);
    PlacedAt(StateAfter(ls).lf.desks[q.p], q.n);
  }

  /**
   A caller that found its queue closing is not refused while its provider is routed and neither being
   removed nor shut down: it is sent to the provider's current queue, which is another one and open.
   */
  lemma UpdateReroutesCallers(ls: seq<Label>, r: Req, p: Provider)
    requires IsHistory(ls)
    requires var s := StateAfter(ls);
             && r in s.callers && s.callers[r].Rerouting? && Closing(s, s.callers[r].q)
             && IsRouted(s.lf, p) && !Started(s.lf) && !s.lf.desks[p].ctl.Removing?
    ensures var s := StateAfter(ls);
            && Enabled(s, Call(r, Reroute(p)))
            && var t := Next(s, Call(r, Reroute(p)));
               && Enabled(t, Call(r, CheckCandidate)) && r in Next(t, Call(r, CheckCandidate)).callers
               && var c := Next(t, Call(r, CheckCandidate)).callers[r];
                  c.Offering? && c.q != s.callers[r].q && c.q == QId(p, s.lf.desks[p].route.value)
  {
    hide LifeInv, DutiesOk, OrderOk, FlowOk, LateOk, CallersOk, OwnersOk, FullOk, BuffersOk, QueuedOk, PoolOk, ArmedOk, QuietOk, CapacityOk;
    hide IsHistory, StateAfter;
    AlwaysInv(ls);
    var s := StateAfter(ls);
    RefuseCaller(s, r);
    RoutedIsOpen(s, p);
  }

  lemma RoutedIsOpen(s: State, p: Provider)
    requires LifeInv(s.lf) && IsRouted(s.lf, p) && !Started(s.lf) && !s.lf.desks[p].ctl.Removing?
    ensures !Closing(s, QId(p, s.lf.desks[p].route.value))
  {
    hide DesksOk, CountOk, QuietingOk;
    assert OpenDesk(s.lf.desks[p], Started(s.lf));
  }
}
