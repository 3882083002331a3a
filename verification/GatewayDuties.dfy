/**
 Goroutines hold messages only where their program counters say so: in every interleaving a worker,
 a transfer or a drain loop has a message in hand exactly between taking it and settling or moving it.
 */
module GatewayDuties {
  import opened Options
  import opened MessageStore
  import opened QueueLife
  import opened Gateway

  // ----- the invariant -----

  /** Control side, buffers and history know the same queues. */
  ghost predicate QueuesMatch(s: State) {
    forall q :: (IsQueue(s.lf, q) <==> q in s.st.at.buffers) && (q in s.hist <==> q in s.st.at.buffers)
  }

  ghost predicate CapacityOk(s: State) {
    forall q :: q in s.st.at.buffers ==> s.st.at.buffers[q].capacity > 0
  }

  /** A goroutine other than a caller holds a message just when its program counter says so. */
  ghost predicate DutyOk(s: State, h: Holder) {
    if h.ByProducer? then h !in s.draining
    else
      && (h in s.st.at.held ==> DutyOf(s.lf, h).Carries? || h in s.draining)
      && (DutyOf(s.lf, h).Carries? ==> h in s.st.at.held && h !in s.draining)
      && (h in s.draining ==> s.draining[h] in s.st.at.buffers && (h == ByShutdown || DutyOf(s.lf, h) == Sweeps(s.draining[h])))
  }

  ghost predicate DutiesOk(s: State) {
    forall h :: DutyOk(s, h)
  }

  lemma DutyFrame(s: State, s': State, h: Holder)
    requires DutyOk(s, h) && DutyOf(s'.lf, h) == DutyOf(s.lf, h)
    requires h in s'.st.at.held <==> h in s.st.at.held
    requires h in s'.draining <==> h in s.draining
    requires h in s.draining ==> s'.draining[h] == s.draining[h]
    requires s.st.at.buffers.Keys <= s'.st.at.buffers.Keys
    ensures DutyOk(s', h)
  {
    hide DutyOf;
  }

  /** A caller with its message in hand moves on, or gives the message back. */
  predicate IsOwnBusiness(l: CallStep) {
    l.CheckClosing? || l.Reroute? || l.CheckCandidate? || l.SawDone? || l.SawCancel? || l.SawFull? || l.DropExcess? || l.Recheck?
  }

  lemma OwnBusiness(s: State, r: Req, l: CallStep)
    requires CanCall(s, r, l) && IsOwnBusiness(l)
    ensures r in s.callers && Holds(s.callers[r])
    ensures var s' := AfterCall(s, r, l);
            || (InHandOf(s, ByProducer(r)) && s' == Refuse(s, r))
            || (r in s'.callers && s' == Moves(s, r, s'.callers[r])
                && (IsOffer(s'.callers[r]) ==> !Closing(s, s'.callers[r].q)))
  {
    hide IsRouted, Closing, IsDone, InHandOf;
  }

  /** A caller's step leaves the control side, the drain loops and everybody else's hands alone. */
  ghost predicate LeavesRest(s: State, s': State, r: Req) {
    && s'.lf == s.lf && s'.draining == s.draining
    && s'.st.at.buffers.Keys == s.st.at.buffers.Keys
    && (forall h :: h != ByProducer(r) ==> (h in s'.st.at.held <==> h in s.st.at.held))
  }

  lemma RefuseFrame(s: State, r: Req)
    requires InHandOf(s, ByProducer(r))
    ensures LeavesRest(s, Refuse(s, r), r)
  {
    hide Unwire;
  }

  lemma OfferFrame(s: State, r: Req, l: CallStep)
    requires CanCall(s, r, l) && (l.Send? || l.Prepare?)
    ensures LeavesRest(s, AfterCall(s, r, l), r)
  {
    hide CanAcquire, WireUp;
  }

  lemma OtherFrame(s: State, r: Req, l: CallStep)
    requires CanCall(s, r, l) && !IsOwnBusiness(l) && !l.Send? && !l.Prepare?
    ensures LeavesRest(s, AfterCall(s, r, l), r)
  {
    hide Unwire, IsRouted;
  }

  lemma CallFrame(s: State, r: Req, l: CallStep)
    requires CanCall(s, r, l)
    ensures LeavesRest(s, AfterCall(s, r, l), r)
  {
    hide CanCall, AfterCall, Refuse, InHandOf;
    if IsOwnBusiness(l) {
      OwnBusiness(s, r, l);
      if InHandOf(s, ByProducer(r)) && AfterCall(s, r, l) == Refuse(s, r) { RefuseFrame(s, r); }
    } else if l.Send? || l.Prepare? {
      OfferFrame(s, r, l);
    } else {
      OtherFrame(s, r, l);
    }
  }

  lemma DutiesAfterCall(s: State, r: Req, l: CallStep)
    requires DutiesOk(s) && CanCall(s, r, l)
    ensures DutiesOk(AfterCall(s, r, l))
  {
    hide CanCall, AfterCall, DutyOf;
    CallFrame(s, r, l);
    forall h ensures DutyOk(AfterCall(s, r, l), h) {
      assert DutyOk(s, h);
    }
  }

  /** What a worker's own move does to its duty. */
  lemma WorkerDutyMoves(lf: Life, w: WId, to: WorkerPc)
    requires CanLife(lf, MoveWorker(w, to))
    ensures IsQueue(lf, w.q) && w.k in QueueOf(lf, w.q).crew
    ensures DutyOf(lf, ByWorker(w)) == match QueueOf(lf, w.q).crew[w.k]
              case Serving => Carries(w.q) case Draining => Sweeps(w.q) case _ => NoDuty
    ensures DutyOf(AfterLife(lf, MoveWorker(w, to)), ByWorker(w)) ==
              if to == Serving then Carries(w.q) else if to == Draining then Sweeps(w.q) else NoDuty
  {
  }

  lemma DutyAfterSettling(s: State, w: WId, l: WorkStep)
    requires DutyOk(s, ByWorker(w)) && CanWork(s, w, l) && (l.Answer? || l.CallerLeft? || l.TimeOut? || l.Panic?)
    ensures DutyOk(AfterWork(s, w, l), ByWorker(w))
  {
    hide CanLife, AfterLife, DutyOf, CanReply;
    WorkerDutyMoves(s.lf, w, if l.Panic? then Panicked else Idle);
  }

  lemma DutyOfWorker(s: State, w: WId, l: WorkStep)
    requires DutyOk(s, ByWorker(w)) && QueuesMatch(s) && CanWork(s, w, l)
    ensures DutyOk(AfterWork(s, w, l), ByWorker(w))
  {
    hide CanLife, AfterLife, DutyOf, CanReply, SettleBy;
    match l
    case Pick => WorkerDutyMoves(s.lf, w, Serving);
    case SawClosed => WorkerDutyMoves(s.lf, w, Draining);
    case Restart => WorkerDutyMoves(s.lf, w, if Closing(s, w.q) then Leaving else Idle);
    case Leave => WorkerDutyMoves(s.lf, w, Leaving);
    case _ => DutyAfterSettling(s, w, l);
  }

  /** A worker step touches only its own hand, its own drain loop and the heads of buffers. */
  lemma WorkFrame(s: State, w: WId, l: WorkStep, h: Holder)
    requires CanWork(s, w, l) && h != ByWorker(w)
    ensures var s' := AfterWork(s, w, l);
            && (h in s'.st.at.held <==> h in s.st.at.held)
            && (h in s'.draining <==> h in s.draining) && (h in s.draining ==> s'.draining[h] == s.draining[h])
            && s'.st.at.buffers.Keys == s.st.at.buffers.Keys
            && s'.lf == AfterLife(s.lf, WorkLife(s, w, l))
  {
    hide CanLife, AfterLife, WorkLife;
  }

  lemma DutiesAfterWork(s: State, w: WId, l: WorkStep)
    requires DutiesOk(s) && QueuesMatch(s) && DesksOk(s.lf.desks) && CanWork(s, w, l)
    ensures DutiesOk(AfterWork(s, w, l))
  {
    hide DutyOf, DutyOk, AfterLife, DesksOk, AfterWork;
    assert CanLife(s.lf, WorkLife(s, w, l));
    forall h ensures DutyOk(AfterWork(s, w, l), h) {
      if h == ByWorker(w) {
        DutyOfWorker(s, w, l);
      } else {
        WorkFrame(s, w, l, h);
        assert !IsActor(WorkLife(s, w, l), h);
        DutyEffect(s.lf, WorkLife(s, w, l), h);
        DutyFrame(s, AfterWork(s, w, l), h);
      }
    }
  }

  lemma DutiesAfterDrain(s: State, h: Holder, l: DrainStep)
    requires DutiesOk(s) && CanDrain(s, h, l)
    ensures DutiesOk(AfterDrain(s, h, l))
  {
    hide DutyOf;
    var s' := AfterDrain(s, h, l);
    forall h' ensures DutyOk(s', h') {
      assert DutyOk(s, h');
    }
  }

  lemma CtlDutyMoves(lf: Life, p: Provider, to: UpdatePc)
    requires CanLife(lf, OnDesk(p, Advance(to)))
    ensures p in lf.desks && lf.desks[p].ctl.Updating?
    ensures var q := QId(p, lf.desks[p].ctl.prev);
            && DutyOf(lf, ByController(p)) == (match lf.desks[p].ctl.upc
                 case UHolding => Carries(q) case UCancelling => Sweeps(q) case _ => NoDuty)
            && DutyOf(AfterLife(lf, OnDesk(p, Advance(to))), ByController(p)) ==
               (if to == UHolding then Carries(q) else if to == UCancelling then Sweeps(q) else NoDuty)
  {
  }

  lemma DutyOfMover(s: State, p: Provider, l: MoveStep)
    requires DutyOk(s, ByController(p)) && CanMove(s, p, l)
    requires OldInBuffers(s, p)
    ensures DutyOk(AfterMove(s, p, l), ByController(p))
  {
    hide CanLife, AfterLife, DutyOf;
    match l
    case MoveTake => CtlDutyMoves(s.lf, p, UHolding);
    case MovePut => CtlDutyMoves(s.lf, p, UMoving);
    case MoveOverflow => CtlDutyMoves(s.lf, p, UCancelling);
    case MoveEnd => CtlDutyMoves(s.lf, p, URetiring);
    case CancelEnd => CtlDutyMoves(s.lf, p, URetiring);
  }

  ghost predicate OldInBuffers(s: State, p: Provider) {
    p in s.lf.desks && s.lf.desks[p].ctl.Updating? ==> OldQueue(s, p) in s.st.at.buffers
  }

  lemma MoveFrame(s: State, p: Provider, l: MoveStep, h: Holder)
    requires CanMove(s, p, l) && h != ByController(p)
    ensures var s' := AfterMove(s, p, l);
            && (h in s'.st.at.held <==> h in s.st.at.held)
            && (h in s'.draining <==> h in s.draining) && (h in s.draining ==> s'.draining[h] == s.draining[h])
            && s'.st.at.buffers.Keys == s.st.at.buffers.Keys
            && s'.lf == AfterLife(s.lf, MoveLife(p, l))
  {
    hide CanLife, AfterLife, MoveLife;
  }

  lemma UpdateQueuesExist(s: State, p: Provider)
    requires QueuesMatch(s) && DesksOk(s.lf.desks)
    ensures p in s.lf.desks && s.lf.desks[p].ctl.Updating? ==>
              && OldQueue(s, p) in s.st.at.buffers && NextQueue(s, p) in s.st.at.buffers
              && OldQueue(s, p) in s.hist && NextQueue(s, p) in s.hist && OldQueue(s, p) != NextQueue(s, p)
    ensures p in s.lf.desks && s.lf.desks[p].ctl.Removing? ==>
              QId(p, s.lf.desks[p].ctl.gone) in s.st.at.buffers && QId(p, s.lf.desks[p].ctl.gone) in s.hist
    ensures IsRouted(s.lf, p) ==>
              QId(p, s.lf.desks[p].route.value) in s.st.at.buffers && QId(p, s.lf.desks[p].route.value) in s.hist
  {
    if p in s.lf.desks {
      assert CtlOk(s.lf.desks[p]);
      if s.lf.desks[p].ctl.Updating? {
        assert IsQueue(s.lf, OldQueue(s, p)) && IsQueue(s.lf, NextQueue(s, p));
      } else if s.lf.desks[p].ctl.Removing? {
        assert IsQueue(s.lf, QId(p, s.lf.desks[p].ctl.gone));
      }
      if IsRouted(s.lf, p) {
        assert IsQueue(s.lf, QId(p, s.lf.desks[p].route.value));
      }
    }
  }

  lemma DutiesAfterMove(s: State, p: Provider, l: MoveStep)
    requires DutiesOk(s) && QueuesMatch(s) && DesksOk(s.lf.desks) && CanMove(s, p, l)
    ensures DutiesOk(AfterMove(s, p, l))
  {
    hide DutyOf, DutyOk, AfterLife, DesksOk, AfterMove, QueuesMatch;
    assert CanLife(s.lf, MoveLife(p, l));
    UpdateQueuesExist(s, p);
    forall h ensures DutyOk(AfterMove(s, p, l), h) {
      if h == ByController(p) {
        DutyOfMover(s, p, l);
      } else {
        MoveFrame(s, p, l, h);
        assert !IsActor(MoveLife(p, l), h);
        DutyEffect(s.lf, MoveLife(p, l), h);
        DutyFrame(s, AfterMove(s, p, l), h);
      }
    }
  }

  /** The goroutine whose drain loop a control step starts or ends. */
  function ControlActor(c: ControlStep): Option<Holder> {
    match c
    case SweepRemoved(p) => Some(ByController(p))
    case SweptRemoved(p) => Some(ByController(p))
    case SweepRetired(q) => Some(ByCleanup(q))
    case SweptRetired(q) => Some(ByCleanup(q))
    case SweepShut(_) => Some(ByShutdown)
    case SweptShut => Some(ByShutdown)
    case _ => None
  }

  lemma ControlFrame(s: State, c: ControlStep, h: Holder)
    requires CanControl(s, c)
    ensures var s' := AfterControl(s, c);
            && s'.st.at.held == s.st.at.held && s'.lf == AfterLife(s.lf, ControlLife(c))
            && s.st.at.buffers.Keys <= s'.st.at.buffers.Keys
            && (ControlActor(c) != Some(h) ==>
                  (h in s'.draining <==> h in s.draining) && (h in s.draining ==> s'.draining[h] == s.draining[h]))
  {
    hide CanLife, AfterLife;
  }

  lemma SweepDuty(lf: Life, c: ControlStep)
    requires CanLife(lf, ControlLife(c)) && ControlActor(c).Some?
    ensures match c
            case SweepRemoved(p) =>
              && DutyOf(lf, ByController(p)) == NoDuty && p in lf.desks && lf.desks[p].ctl.Removing?
              && DutyOf(AfterLife(lf, ControlLife(c)), ByController(p)) == Sweeps(QId(p, lf.desks[p].ctl.gone))
            case SweptRemoved(p) =>
              DutyOf(lf, ByController(p)).Sweeps? && DutyOf(AfterLife(lf, ControlLife(c)), ByController(p)) == NoDuty
            case SweepRetired(q) =>
              && DutyOf(lf, ByCleanup(q)) == NoDuty && IsQueue(lf, q)
              && DutyOf(AfterLife(lf, ControlLife(c)), ByCleanup(q)) == Sweeps(q)
            case SweptRetired(q) =>
              DutyOf(lf, ByCleanup(q)).Sweeps? && DutyOf(AfterLife(lf, ControlLife(c)), ByCleanup(q)) == NoDuty
            case SweepShut(p) => IsRouted(lf, p)
            case _ => true
    ensures DutyOf(lf, ByShutdown) == NoDuty && DutyOf(AfterLife(lf, ControlLife(c)), ByShutdown) == NoDuty
  {
  }

  lemma DutyOfSweeper(s: State, c: ControlStep)
    requires DutiesOk(s) && QueuesMatch(s) && DesksOk(s.lf.desks) && CanControl(s, c) && ControlActor(c).Some?
    ensures DutyOk(AfterControl(s, c), ControlActor(c).value)
  {
    hide CanLife, AfterLife, DutyOf, DesksOk;
    SweepDuty(s.lf, c);
    var h := ControlActor(c).value;
    assert DutyOk(s, h);
    if c.SweepRemoved? { UpdateQueuesExist(s, c.p); }
    if c.SweepShut? { UpdateQueuesExist(s, c.p); }
  }

  lemma ControlIsNoActor(s: State, c: ControlStep, h: Holder)
    requires CanControl(s, c) && ControlActor(c) != Some(h) && !c.Plain?
    ensures !IsActor(ControlLife(c), h)
  {
  }

  lemma DutiesAfterControl(s: State, c: ControlStep)
    requires DutiesOk(s) && QueuesMatch(s) && DesksOk(s.lf.desks) && CanControl(s, c)
    ensures DutiesOk(AfterControl(s, c))
  {
    hide DutyOf, DutyOk, AfterLife, DesksOk, AfterControl, QueuesMatch, ControlLife, ControlActor;
    assert CanLife(s.lf, ControlLife(c));
    forall h ensures DutyOk(AfterControl(s, c), h) {
      ControlFrame(s, c, h);
      if ControlActor(c) == Some(h) {
        DutyOfSweeper(s, c);
      } else {
        if c.Plain? {
          PlainControl(s, c);
          PlainDuty(s.lf, c.ll, h);
        } else {
          ControlIsNoActor(s, c, h);
          DutyEffect(s.lf, ControlLife(c), h);
        }
        DutyFrame(s, AfterControl(s, c), h);
      }
    }
  }

  lemma PlainControl(s: State, c: ControlStep)
    requires CanControl(s, c) && c.Plain?
    ensures IsPlain(s.lf, c.ll) && ControlLife(c) == c.ll && ControlActor(c) == None
  {
  }
}
