/**
 Two concrete runs of one provider, one worker and one caller. "Every enqueued request is answered"
 fails: the caller's message ends up stranded in the removed provider's queue. "An abandoned result is
 always billed" fails: the worker's reply goes into the free slot of a caller that has given up.
 */
module GatewayExample {
  import opened Options
  import opened MessageStore
  import opened QueueLife
  import opened Gateway
  import opened GatewayDuties
  import opened GatewayCallers
  import opened GatewayFlow
  import opened GatewayTheorems
  import opened GatewayWindow
  import opened GatewayBilling

  const Q := QId(0, 0)
  const W := WId(Q, 0)
  const CHANS := {Chan(Response, 0), Chan(Failure, 0)}

  function Crew(pc: WorkerPc): map<nat, WorkerPc> { map[0 := pc] }

  function Routed1(x: Queue, ctl: Ctl): Desk { Desk(map[0 := x], Some(0), Some(0), None, ctl) }

  const BUFFER := Buffer([], 1, [], [])

  const EMPTY := Store(Places(map[Q := BUFFER], {}, map[], {}, map[]), Replies(map[], map[], {}, {}, map[]))

  const HELD := Store(
    Places(map[Q := BUFFER], {}, map[ByProducer(0) := 0], {}, map[0 := InHand(ByProducer(0))]),
    Replies(map[0 := 0], map[0 := CHANS], {}, {}, map[Chan(Response, 0) := Some(0), Chan(Failure, 0) := Some(0)]))

  const QUEUED := HELD.(at := Places(map[Q := Buffer([0], 1, [0], [])], {}, map[], {}, map[0 := InQueue(Q)]))

  /** The gateway before the caller comes. */
  function Before(d: Desk): State {
    State(EMPTY, Life(map[0 := d], 0, SNotStarted, false), map[], {}, {}, map[], map[], map[], map[Q := NO_HISTORY])
  }

  /** The gateway with the caller at `c`. */
  function With(d: Desk, st: Store, c: Caller, draining: map<Holder, QId>, x: History): State {
    State(st, Life(map[0 := d], 0, SNotStarted, false), map[0 := c], {}, {}, draining, map[0 := []], map[0 := 0], map[Q := x])
  }

  /** The caller is past its closing check; the provider is being removed. */
  function Pending(d: Desk, draining: map<Holder, QId>, quiet: bool): State {
    With(d, HELD, Offering(Q), draining, History({0}, {}, map[], map[], quiet))
  }

  const OPEN := Queue(false, false, 1, map[0 := Idle], Active)

  function Closed(wg: nat, pc: WorkerPc): Queue { Queue(true, true, wg, Crew(pc), Active) }

  const ENDED := Desk(map[0 := Closed(0, Gone)], None, None, None, Free)

  ghost predicate Goes(s: State, l: Label, t: State) { Enabled(s, l) && Next(s, l) == t }

  ghost predicate Reaches(ls: seq<Label>, t: State) { IsHistory(ls) && StateAfter(ls) == t }

  lemma ReachesMore(ls: seq<Label>, t: State, l: Label, t': State)
    requires Reaches(ls, t) && Goes(t, l, t')
    ensures Reaches(ls + [l], t')
  {
    hide Enabled, Next;
    assert (ls + [l])[..|ls|] == ls;
  }

  function Ctl1(l: DeskStep): Label { Control(Plain(OnDesk(0, l))) }

  /** Control steps that touch no messages need only be looked at on the provider's desk. */
  predicate DeskGoes(d: Desk, l: DeskStep, d': Desk) {
    && CanDesk(d, l) && AfterDesk(d, l) == d' && !l.Flag? && !l.Close? && !l.Update? && !l.Create? && !l.Count? && !l.CleanupFinish?
    && (l.Group? || l.StartWorker? || l.Created? || l.Remove? || l.RemoveClose? || l.RemoveRetired? || l.Unroute? || l.Ungroup? || l.WorkerGone?)
  }

  lemma PlainGoes(s: State, d: Desk, l: DeskStep, d': Desk)
    requires s.lf == Life(map[0 := d], 0, SNotStarted, false) && DeskGoes(d, l, d')
    ensures Goes(s, Ctl1(l), s.(lf := s.lf.(desks := map[0 := d'])))
  {
    hide CanDesk, AfterDesk;
    assert map[0 := d][0 := d'] == map[0 := d'];
  }

  const CREATING := Desk(map[0 := NEW_QUEUE], Some(0), None, None, Creating(0, false, 1))

  lemma Created1()
    ensures Goes(INITIAL, Control(NewQueue(0, 0, 1, 1)), Before(CREATING))
  {
    var s := Next(INITIAL, Control(NewQueue(0, 0, 1, 1)));
    assert s.lf.desks == map[0 := CREATING];
    assert s.st.at.buffers == map[Q := BUFFER];
    assert s.hist == map[Q := NO_HISTORY];
  }

  lemma Staffed()
    ensures DeskGoes(CREATING, Group, Routed1(NEW_QUEUE, Creating(0, true, 1)))
    ensures DeskGoes(Routed1(NEW_QUEUE, Creating(0, true, 1)), StartWorker(0), Routed1(OPEN, Creating(0, true, 0)))
    ensures DeskGoes(Routed1(OPEN, Creating(0, true, 0)), Created, Routed1(OPEN, Free))
  {
    var d := Routed1(NEW_QUEUE, Creating(0, true, 1));
    assert AfterDesk(d, StartWorker(0)).queues == map[0 := OPEN];
  }

  lemma Arrives()
    ensures Goes(Before(Routed1(OPEN, Free)), Call(0, Start(0, false)), With(Routed1(OPEN, Free), EMPTY, Routed(Q), map[], NO_HISTORY))
  {
  }

  lemma Acquired()
    ensures CanAcquire(EMPTY, 0, 0, CHANS, false) && Acquire(EMPTY, 0, 0, CHANS) == HELD
  {
    assert Chan(Response, 0) in CHANS && Chan(Failure, 0) in CHANS;
    assert WellWired(CHANS, false);
    var t := Acquire(EMPTY, 0, 0, CHANS);
    assert t.rp.lead == HELD.rp.lead;
    assert t.at.held == HELD.at.held && t.at.home == HELD.at.home;
    assert t.rp.owner == HELD.rp.owner && t.rp.wires == HELD.rp.wires;
  }

  lemma Prepares()
    ensures Goes(With(Routed1(OPEN, Free), EMPTY, Routed(Q), map[], NO_HISTORY), Call(0, Prepare(0, CHANS)),
                 With(Routed1(OPEN, Free), HELD, Prepared(Q), map[], NO_HISTORY))
  {
    hide CanAcquire, Acquire;
    Acquired();
    assert map[0 := Routed(Q)][0 := Prepared(Q)] == map[0 := Prepared(Q)];
  }

  lemma Checks()
    ensures Goes(With(Routed1(OPEN, Free), HELD, Prepared(Q), map[], NO_HISTORY), Call(0, CheckClosing),
                 With(Routed1(OPEN, Free), HELD, Offering(Q), map[], NO_HISTORY))
  {
    var t := Next(With(Routed1(OPEN, Free), HELD, Prepared(Q), map[], NO_HISTORY), Call(0, CheckClosing));
    assert t.callers == map[0 := Offering(Q)];
  }

  lemma FlaggedDesk()
    ensures CanDesk(Routed1(OPEN, Removing(0, RFlagging)), RemoveFlag)
    ensures AfterDesk(Routed1(OPEN, Removing(0, RFlagging)), RemoveFlag) == Routed1(OPEN.(closing := true), Removing(0, RClosing))
  {
    assert AfterDesk(Routed1(OPEN, Removing(0, RFlagging)), RemoveFlag).queues == map[0 := OPEN.(closing := true)];
  }

  lemma Signalled()
    ensures Goes(With(Routed1(OPEN, Removing(0, RFlagging)), HELD, Offering(Q), map[], NO_HISTORY),
                 Control(Signal(OnDesk(0, RemoveFlag))),
                 Pending(Routed1(OPEN.(closing := true), Removing(0, RClosing)), map[], false))
  {
    hide CanDesk, AfterDesk;
    FlaggedDesk();
    var s := With(Routed1(OPEN, Removing(0, RFlagging)), HELD, Offering(Q), map[], NO_HISTORY);
    var l := Control(Signal(OnDesk(0, RemoveFlag)));
    assert Enabled(s, l);
    var t := Next(s, l);
    assert Armed(s, Q) == {0};
    assert t.hist == map[Q := History({0}, {}, map[], map[], false)];
    assert t.lf.desks == map[0 := Routed1(OPEN.(closing := true), Removing(0, RClosing))];
  }

  lemma RemovalDesk()
    ensures DeskGoes(Routed1(OPEN, Free), Remove, Routed1(OPEN, Removing(0, RFlagging)))
    ensures DeskGoes(Routed1(OPEN.(closing := true), Removing(0, RClosing)), RemoveClose, Joining(1, Idle))
  {
    assert AfterDesk(Routed1(OPEN.(closing := true), Removing(0, RClosing)), RemoveClose).queues == map[0 := Closed(1, Idle)];
  }

  lemma LastWorkerDesk()
    ensures DeskGoes(Joining(1, Leaving), WorkerGone(0, 0), Joining(0, Gone))
  {
    assert AfterDesk(Joining(1, Leaving), WorkerGone(0, 0)).queues[0].crew == Crew(Gone);
    assert AfterDesk(Joining(1, Leaving), WorkerGone(0, 0)).queues == map[0 := Closed(0, Gone)];
  }

  lemma DepartureDesk()
    ensures DeskGoes(Routed1(Closed(0, Gone), Removing(0, RRetired)), RemoveRetired, Routed1(Closed(0, Gone), Removing(0, RUnrouting)))
    ensures DeskGoes(Routed1(Closed(0, Gone), Removing(0, RUnrouting)), Unroute, UNROUTED)
    ensures DeskGoes(UNROUTED, Ungroup, ENDED)
  {
  }

  const UNROUTED := Desk(map[0 := Closed(0, Gone)], None, Some(0), None, Removing(0, RUngrouping))

  function Joining(wg: nat, pc: WorkerPc): Desk { Routed1(Closed(wg, pc), Removing(0, RJoining)) }

  lemma WorkerMoved(pc: WorkerPc, to: WorkerPc)
    requires WorkerMoves(Closed(1, pc), pc, to)
    ensures var lf := Life(map[0 := Joining(1, pc)], 0, SNotStarted, false);
            CanLife(lf, MoveWorker(W, to)) && AfterLife(lf, MoveWorker(W, to)) == Life(map[0 := Joining(1, to)], 0, SNotStarted, false)
  {
    var d := Joining(1, pc);
    assert AfterDesk(d, WorkerMove(0, 0, to)).queues[0].crew == Crew(to);
    assert AfterDesk(d, WorkerMove(0, 0, to)).queues == map[0 := Closed(1, to)];
    assert map[0 := d][0 := Joining(1, to)] == map[0 := Joining(1, to)];
  }

  lemma WorkerDrains()
    ensures Goes(Pending(Joining(1, Idle), map[], false), Work(W, SawClosed), Pending(Joining(1, Draining), map[ByWorker(W) := Q], false))
  {
    hide CanLife, AfterLife;
    WorkerMoved(Idle, Draining);
  }

  lemma WorkerFindsNothing()
    ensures Goes(Pending(Joining(1, Draining), map[ByWorker(W) := Q], false), Drain(ByWorker(W), DrainEnd),
                 Pending(Joining(1, Draining), map[], false))
  {
    var t := Next(Pending(Joining(1, Draining), map[ByWorker(W) := Q], false), Drain(ByWorker(W), DrainEnd));
    assert t.draining == map[];
    assert t.hist == map[Q := History({0}, {}, map[], map[], false)];
  }

  lemma WorkerLeaves()
    ensures Goes(Pending(Joining(1, Draining), map[], false), Work(W, Leave), Pending(Joining(1, Leaving), map[], false))
  {
    hide CanLife, AfterLife;
    WorkerMoved(Draining, Leaving);
  }

  function Removal(pc: RemovePc): Desk { Routed1(Closed(0, Gone), Removing(0, pc)) }

  lemma SweepBegins()
    ensures Goes(Pending(Removal(RJoining), map[], false), Control(SweepRemoved(0)), Pending(Removal(RSweeping), map[ByController(0) := Q], false))
  {
    hide Armed;
    var s := Pending(Removal(RJoining), map[], false);
    assert Enabled(s, Control(SweepRemoved(0)));
    assert AfterLife(s.lf, OnDesk(0, RemoveJoin)).desks == map[0 := Removal(RSweeping)];
  }

  lemma SweepEnds()
    ensures Goes(Pending(Removal(RSweeping), map[], true), Control(SweptRemoved(0)), Pending(Removal(RRetired), map[], true))
  {
    hide Armed;
    var s := Pending(Removal(RSweeping), map[], true);
    assert Enabled(s, Control(SweptRemoved(0)));
    assert AfterLife(s.lf, OnDesk(0, RemoveSwept)).desks == map[0 := Removal(RRetired)];
  }

  lemma FoundEmpty()
    ensures Goes(Pending(Removal(RSweeping), map[ByController(0) := Q], false), Drain(ByController(0), DrainEnd),
                 Pending(Removal(RSweeping), map[], true))
  {
    var t := Next(Pending(Removal(RSweeping), map[ByController(0) := Q], false), Drain(ByController(0), DrainEnd));
    assert t.draining == map[];
    assert t.hist == map[Q := History({0}, {}, map[], map[], true)];
  }

  const LOST := With(ENDED, QUEUED, Awaiting(0), map[], History({0}, {0}, map[], map[], true))

  lemma LateSend1()
    ensures Goes(Pending(ENDED, map[], true), Call(0, Send), LOST)
  {
    var s := Pending(ENDED, map[], true);
    assert Enabled(s, Call(0, Send));
    var t := Next(s, Call(0, Send));
    assert [] + [0] == [0] && {} + {0} == {0};
    assert t.st.at.buffers == QUEUED.at.buffers;
    assert t.st.at.held == map[] && t.st.at.home == QUEUED.at.home;
    assert t.hist == LOST.hist;
    assert t.callers == LOST.callers;
  }

  lemma PlainReaches(ls: seq<Label>, s: State, d: Desk, l: DeskStep, d': Desk)
    requires Reaches(ls, s) && s.lf == Life(map[0 := d], 0, SNotStarted, false) && DeskGoes(d, l, d')
    ensures Reaches(ls + [Ctl1(l)], s.(lf := s.lf.(desks := map[0 := d'])))
  {
    hide Reaches, Goes, DeskGoes;
    PlainGoes(s, d, l, d');
    ReachesMore(ls, s, Ctl1(l), s.(lf := s.lf.(desks := map[0 := d'])));
  }

  const CHECKED := With(Routed1(OPEN, Free), HELD, Offering(Q), map[], NO_HISTORY)

  lemma ReachChecked() returns (ls: seq<Label>)
    ensures Reaches(ls, CHECKED)
  {
    hide Reaches, Goes, DeskGoes, INITIAL;
    ls := [];
    ReachInitial();
    Created1();
    ReachesMore(ls, INITIAL, Control(NewQueue(0, 0, 1, 1)), Before(CREATING));
    ls := ls + [Control(NewQueue(0, 0, 1, 1))];
    Staffed();
    PlainReaches(ls, Before(CREATING), CREATING, Group, Routed1(NEW_QUEUE, Creating(0, true, 1)));
    ls := ls + [Ctl1(Group)];
    PlainReaches(ls, Before(Routed1(NEW_QUEUE, Creating(0, true, 1))), Routed1(NEW_QUEUE, Creating(0, true, 1)),
                 StartWorker(0), Routed1(OPEN, Creating(0, true, 0)));
    ls := ls + [Ctl1(StartWorker(0))];
    PlainReaches(ls, Before(Routed1(OPEN, Creating(0, true, 0))), Routed1(OPEN, Creating(0, true, 0)), Created, Routed1(OPEN, Free));
    ls := ls + [Ctl1(Created)];
    Arrives();
    ReachesMore(ls, Before(Routed1(OPEN, Free)), Call(0, Start(0, false)), With(Routed1(OPEN, Free), EMPTY, Routed(Q), map[], NO_HISTORY));
    ls := ls + [Call(0, Start(0, false))];
    Prepares();
    ReachesMore(ls, With(Routed1(OPEN, Free), EMPTY, Routed(Q), map[], NO_HISTORY), Call(0, Prepare(0, CHANS)),
                With(Routed1(OPEN, Free), HELD, Prepared(Q), map[], NO_HISTORY));
    ls := ls + [Call(0, Prepare(0, CHANS))];
    Checks();
    ReachesMore(ls, With(Routed1(OPEN, Free), HELD, Prepared(Q), map[], NO_HISTORY), Call(0, CheckClosing), CHECKED);
    ls := ls + [Call(0, CheckClosing)];
  }

  lemma ReachInitial()
    ensures Reaches([], INITIAL)
  {
  }

  lemma ReachSwept() returns (ls: seq<Label>)
    ensures Reaches(ls, Pending(Removal(RSweeping), map[], true))
  {
    hide Reaches, Goes, DeskGoes;
    ls := ReachChecked();
    RemovalDesk();
    PlainReaches(ls, CHECKED, Routed1(OPEN, Free), Remove, Routed1(OPEN, Removing(0, RFlagging)));
    ls := ls + [Ctl1(Remove)];
    Signalled();
    ReachesMore(ls, With(Routed1(OPEN, Removing(0, RFlagging)), HELD, Offering(Q), map[], NO_HISTORY), Control(Signal(OnDesk(0, RemoveFlag))),
                Pending(Routed1(OPEN.(closing := true), Removing(0, RClosing)), map[], false));
    ls := ls + [Control(Signal(OnDesk(0, RemoveFlag)))];
    PlainReaches(ls, Pending(Routed1(OPEN.(closing := true), Removing(0, RClosing)), map[], false),
                 Routed1(OPEN.(closing := true), Removing(0, RClosing)), RemoveClose, Joining(1, Idle));
    ls := ls + [Ctl1(RemoveClose)];
    WorkerDrains();
    ReachesMore(ls, Pending(Joining(1, Idle), map[], false), Work(W, SawClosed), Pending(Joining(1, Draining), map[ByWorker(W) := Q], false));
    ls := ls + [Work(W, SawClosed)];
    WorkerFindsNothing();
    ReachesMore(ls, Pending(Joining(1, Draining), map[ByWorker(W) := Q], false), Drain(ByWorker(W), DrainEnd), Pending(Joining(1, Draining), map[], false));
    ls := ls + [Drain(ByWorker(W), DrainEnd)];
    WorkerLeaves();
    ReachesMore(ls, Pending(Joining(1, Draining), map[], false), Work(W, Leave), Pending(Joining(1, Leaving), map[], false));
    ls := ls + [Work(W, Leave)];
    LastWorkerDesk();
    PlainReaches(ls, Pending(Joining(1, Leaving), map[], false), Joining(1, Leaving), WorkerGone(0, 0), Removal(RJoining));
    ls := ls + [Ctl1(WorkerGone(0, 0))];
    SweepBegins();
    ReachesMore(ls, Pending(Removal(RJoining), map[], false), Control(SweepRemoved(0)), Pending(Removal(RSweeping), map[ByController(0) := Q], false));
    ls := ls + [Control(SweepRemoved(0))];
    FoundEmpty();
    ReachesMore(ls, Pending(Removal(RSweeping), map[ByController(0) := Q], false), Drain(ByController(0), DrainEnd), Pending(Removal(RSweeping), map[], true));
    ls := ls + [Drain(ByController(0), DrainEnd)];
  }

  lemma ReachLost() returns (ls: seq<Label>)
    ensures Reaches(ls, LOST)
  {
    hide Reaches, Goes, DeskGoes;
    ls := ReachSwept();
    SweepEnds();
    ReachesMore(ls, Pending(Removal(RSweeping), map[], true), Control(SweptRemoved(0)), Pending(Removal(RRetired), map[], true));
    ls := ls + [Control(SweptRemoved(0))];
    DepartureDesk();
    PlainReaches(ls, Pending(Removal(RRetired), map[], true), Removal(RRetired), RemoveRetired, Removal(RUnrouting));
    ls := ls + [Ctl1(RemoveRetired)];
    PlainReaches(ls, Pending(Removal(RUnrouting), map[], true), Removal(RUnrouting), Unroute, UNROUTED);
    ls := ls + [Ctl1(Unroute)];
    PlainReaches(ls, Pending(UNROUTED, map[], true), UNROUTED, Ungroup, ENDED);
    ls := ls + [Ctl1(Ungroup)];
    LateSend1();
    ReachesMore(ls, Pending(ENDED, map[], true), Call(0, Send), LOST);
    ls := ls + [Call(0, Send)];
  }

  lemma LostIsStranded()
    ensures Stranded(LOST, Q) && IsWaitingIn(LOST, Q, 0, 0) && LOST.callers[0] == Awaiting(0) && LOST.hist[Q].quiet
  {
  }

  /** Some request was enqueued, and in no continuation is it ever answered, not even with an error. */
  lemma SomeRequestIsNeverAnswered()
    ensures exists ls :: IsHistory(ls) && StateAfter(ls) == LOST &&
              forall more :: CanRun(LOST, more) ==>
                IsWaitingIn(AfterRun(LOST, more), Q, 0, 0)
  {
    hide IsHistory, StateAfter, Inv, Stranded, IsWaitingIn, Enabled, Next;
    var ls := ReachLost();
    assert IsHistory(ls) && StateAfter(ls) == LOST;
    AlwaysInv(ls);
    LostIsStranded();
    forall more | CanRun(LOST, more)
      ensures IsWaitingIn(AfterRun(LOST, more), Q, 0, 0)
    {
      StrandedForever(LOST, more, Q, 0, 0);
    }
  }

  // ----- an abandoned result -----

  const SENT := History({}, {0}, map[], map[], false)

  const TAKEN := QUEUED.(at := Places(map[Q := Buffer([], 1, [0], [0])], {}, map[ByWorker(W) := 0], {}, map[0 := InHand(ByWorker(W))]))

  const BUSY := Routed1(Queue(false, false, 1, map[0 := Serving], Active), Free)

  lemma Sends0()
    ensures Goes(CHECKED, Call(0, Send), With(Routed1(OPEN, Free), QUEUED, Awaiting(0), map[], SENT))
  {
    assert Enabled(CHECKED, Call(0, Send));
    var t := Next(CHECKED, Call(0, Send));
    assert [] + [0] == [0] && {} + {0} == {0};
    assert t.st.at.buffers == QUEUED.at.buffers;
    assert t.st.at.held == map[] && t.st.at.home == QUEUED.at.home;
    assert t.hist == map[Q := SENT];
    assert t.callers == map[0 := Awaiting(0)];
  }

  lemma PickedLife()
    ensures var lf := Life(map[0 := Routed1(OPEN, Free)], 0, SNotStarted, false);
            CanLife(lf, MoveWorker(W, Serving)) && AfterLife(lf, MoveWorker(W, Serving)) == Life(map[0 := BUSY], 0, SNotStarted, false)
  {
    var d := Routed1(OPEN, Free);
    assert AfterDesk(d, WorkerMove(0, 0, Serving)).queues[0].crew == map[0 := Serving];
    assert AfterDesk(d, WorkerMove(0, 0, Serving)).queues == BUSY.queues;
    assert map[0 := d][0 := BUSY] == map[0 := BUSY];
  }

  lemma Picks0()
    ensures Goes(With(Routed1(OPEN, Free), QUEUED, Awaiting(0), map[], SENT), Work(W, Pick), With(BUSY, TAKEN, Awaiting(0), map[], SENT))
  {
    hide CanLife, AfterLife;
    PickedLife();
    var s := With(Routed1(OPEN, Free), QUEUED, Awaiting(0), map[], SENT);
    var t := Next(s, Work(W, Pick));
    assert [0][1..] == [] && [] + [0] == [0];
    assert t.st.at.buffers == TAKEN.at.buffers;
    assert t.st.at.held == TAKEN.at.held && t.st.at.home == TAKEN.at.home;
  }

  const LEFT := With(BUSY, TAKEN, Abandoned(0), map[], SENT).(cancelled := {0})

  lemma IsCancelled()
    ensures Goes(With(BUSY, TAKEN, Awaiting(0), map[], SENT), Call(0, Cancel), With(BUSY, TAKEN, Awaiting(0), map[], SENT).(cancelled := {0}))
  {
    assert {} + {0} == {0};
  }

  lemma GivesUp()
    ensures Goes(With(BUSY, TAKEN, Awaiting(0), map[], SENT).(cancelled := {0}), Call(0, Abandon), LEFT)
  {
    assert map[0 := Awaiting(0)][0 := Abandoned(0)] == map[0 := Abandoned(0)];
  }

  lemma ReachLeft() returns (ls: seq<Label>)
    ensures Reaches(ls, LEFT)
  {
    hide Reaches, Goes;
    ls := ReachChecked();
    Sends0();
    ReachesMore(ls, CHECKED, Call(0, Send), With(Routed1(OPEN, Free), QUEUED, Awaiting(0), map[], SENT));
    ls := ls + [Call(0, Send)];
    Picks0();
    ReachesMore(ls, With(Routed1(OPEN, Free), QUEUED, Awaiting(0), map[], SENT), Work(W, Pick), With(BUSY, TAKEN, Awaiting(0), map[], SENT));
    ls := ls + [Work(W, Pick)];
    IsCancelled();
    ReachesMore(ls, With(BUSY, TAKEN, Awaiting(0), map[], SENT), Call(0, Cancel), With(BUSY, TAKEN, Awaiting(0), map[], SENT).(cancelled := {0}));
    ls := ls + [Call(0, Cancel)];
    GivesUp();
    ReachesMore(ls, With(BUSY, TAKEN, Awaiting(0), map[], SENT).(cancelled := {0}), Call(0, Abandon), LEFT);
    ls := ls + [Call(0, Abandon)];
  }

  lemma LeftIsAbandoned()
    ensures ServesAbandoned(LEFT, W, 0)
  {
  }

  /** The caller gives up, the provider's result goes into the free slot, and in no continuation do the hooks run. */
  lemma SomeResultIsNeverBilled()
    ensures exists ls, c: Chan :: IsHistory(ls) && StateAfter(ls) == LEFT && c.port == Response
              && Enabled(LEFT, Work(W, Answer(c))) && BilledForever(Next(LEFT, Work(W, Answer(c))), 0, 0)
  {
    hide IsHistory, StateAfter, ServesAbandoned, Enabled, Next, BilledForever;
    var ls := ReachLeft();
    assert IsHistory(ls) && StateAfter(ls) == LEFT;
    LeftIsAbandoned();
    assert Response in {Response, Failure};
    BothCasesReady(ls, W, 0, Response);
    var c: Chan :| c.port == Response && Enabled(StateAfter(ls), Work(W, Answer(c)));
    BilledIff(ls, W, 0, Answer(c));
  }
}
