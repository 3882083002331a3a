/**
 The provider queues as one transition system: callers (`tryRequest`, `tryStreamRequest`), workers
 (`requestWorkerServe`), the drain loops, `UpdateProvider`'s transfer, and the controllers, in every
 interleaving. A `select` with several ready cases is one step per case.
 */
module Gateway {
  import opened Options
  import opened MessageStore
  import opened QueueLife

  /** Program counter of a request's own goroutine, from routing to the end of tryRequest. */
  datatype Caller =
    | Routed(q: QId) | Prepared(q: QId) | Rerouting(q: QId) | Candidate(q: QId)
    | Offering(q: QId) | Full(q: QId) | Blocking(q: QId)
    | Awaiting(m: Msg) | Answered(m: Msg, port: Port) | Abandoned(m: Msg)
    | Returned

  /** How a request that was enqueued was settled. */
  datatype Fate = Replied(port: Port) | CallerGone | TimedOut | Dropped

  /**
   Auxiliary history of one queue: the callers past their closing check when it was signalled, the
   requests that went through it, where an update moved some of them, in which order, and whether a
   drain loop found it empty after its last worker had exited.
   */
  datatype History = History(
    armedAt: set<Req>, through: set<Req>, movedOut: map<Req, QId>, moved: map<QId, seq<Msg>>, quiet: bool)

  const NO_HISTORY := History({}, {}, map[], map[], false)

  /**
   `log`, `hooks` (post-LLM hook runs after enqueue) and `hist` are auxiliary. A guard that mentions them
   only asks that they have an entry, which they do in every reachable state (GuardsAskNothingExtra).
   */
  datatype State = State(
    st: Store,
    lf: Life,
    callers: map<Req, Caller>,
    streaming: set<Req>,
    cancelled: set<Req>,
    draining: map<Holder, QId>,
    log: map<Req, seq<Fate>>,
    hooks: map<Req, nat>,
    hist: map<QId, History>)

  const INITIAL := State(EMPTY_STORE, INITIAL_LIFE, map[], {}, {}, map[], map[], map[], map[])

  datatype CallStep =
    | Start(p: Provider, stream: bool) | Prepare(m: Msg, cs: set<Chan>) | CheckClosing | Reroute(p: Provider)
    | CheckCandidate | Send | SawDone | SawCancel | SawFull | DropExcess | Recheck
    | ReceiveReply(c: Chan) | Finish | Abandon | Cancel

  datatype WorkStep =
    | Pick | SawClosed | Answer(c: Chan) | CallerLeft | TimeOut(c: Chan) | Panic | Restart | Leave

  datatype DrainStep = DrainTake | DrainReply(c: Chan) | DrainCallerLeft | DrainEnd

  datatype MoveStep = MoveTake | MovePut | MoveOverflow | MoveEnd | CancelEnd

  datatype ControlStep =
    | NewQueue(p: Provider, n: nat, capacity: nat, workers: nat)
    | Replace(p: Provider, n: nat, capacity: nat, workers: nat)
    | Signal(ll: LifeStep)
    | SweepRemoved(p: Provider) | SweptRemoved(p: Provider)
    | SweepRetired(q: QId) | SweptRetired(q: QId)
    | SweepShut(p: Provider) | SweptShut
    | Plain(ll: LifeStep)

  datatype Label =
    | Call(r: Req, call: CallStep)
    | Work(w: WId, work: WorkStep)
    | Drain(h: Holder, drain: DrainStep)
    | Move(p: Provider, move: MoveStep)
    | Control(ctl: ControlStep)

  predicate Closing(s: State, q: QId) { IsQueue(s.lf, q) && QueueOf(s.lf, q).closing }

  predicate IsDone(s: State, q: QId) { IsQueue(s.lf, q) && QueueOf(s.lf, q).done }

  predicate IsOffer(c: Caller) { c.Offering? || c.Blocking? }

  /** Callers that passed a closing check on `q` and can still win the send. */
  ghost function Armed(s: State, q: QId): set<Req> {
    set r | r in s.callers && IsOffer(s.callers[r]) && s.callers[r].q == q
  }

  predicate Holds(c: Caller) {
    c.Prepared? || c.Rerouting? || c.Candidate? || c.Offering? || c.Full? || c.Blocking?
  }

  predicate InHandOf(s: State, h: Holder) {
    h in s.st.at.held && s.st.at.held[h] in s.st.rp.wires && s.st.at.held[h] in s.st.rp.owner
  }

  function MsgOf(s: State, h: Holder): Msg
    requires InHandOf(s, h)
  {
    s.st.at.held[h]
  }

  function OwnerOf(s: State, h: Holder): Req
    requires InHandOf(s, h)
  {
    s.st.rp.owner[s.st.at.held[h]]
  }

  /** A reply send on `c` can go ahead: the channel is one of the message's and its slot is free. */
  predicate CanReply(s: State, h: Holder, c: Chan) {
    InHandOf(s, h) && c in s.st.rp.wires[MsgOf(s, h)] && c !in s.st.rp.full
  }

  predicate LogsFor(s: State, h: Holder) {
    InHandOf(s, h) && OwnerOf(s, h) in s.log && OwnerOf(s, h) in s.hooks
  }

  // ----- callers -----

  ghost predicate CanCall(s: State, r: Req, l: CallStep) {
    if l.Start? then
      r !in s.callers && IsRouted(s.lf, l.p) && s.lf.desks[l.p].ctl == Free
    else r in s.callers && match l
      case Prepare(m, cs) => s.callers[r].Routed? && CanAcquire(s.st, r, m, cs, r in s.streaming)
      case CheckClosing => s.callers[r].Prepared?
      case Reroute(p) => s.callers[r].Rerouting? && InHandOf(s, ByProducer(r))
      case CheckCandidate => s.callers[r].Candidate? && InHandOf(s, ByProducer(r))
      case Send =>
        && IsOffer(s.callers[r]) && InHandOf(s, ByProducer(r))
        && HasRoom(s.st.at, s.callers[r].q) && s.callers[r].q in s.hist
      case SawDone => IsOffer(s.callers[r]) && InHandOf(s, ByProducer(r)) && IsDone(s, s.callers[r].q)
      case SawCancel => IsOffer(s.callers[r]) && InHandOf(s, ByProducer(r)) && r in s.cancelled
      case SawFull =>
        && s.callers[r].Offering? && !HasRoom(s.st.at, s.callers[r].q)
        && !IsDone(s, s.callers[r].q) && r !in s.cancelled
      case DropExcess => s.callers[r].Full? && InHandOf(s, ByProducer(r))
      case Recheck => s.callers[r].Full? && InHandOf(s, ByProducer(r))
      case ReceiveReply(c) =>
        s.callers[r].Awaiting? && s.callers[r].m in s.st.rp.wires && c in s.st.rp.wires[s.callers[r].m] && c in s.st.rp.full
      case Finish => s.callers[r].Answered? && s.callers[r].m in s.st.rp.wires && r in s.hooks
      case Abandon => s.callers[r].Awaiting? && r in s.cancelled
      case Cancel => true
      case _ => false
  }

  /** The caller gives the message back and returns an error. */
  function Refuse(s: State, r: Req): State
    requires InHandOf(s, ByProducer(r))
  {
    s.(st := Return(s.st, r), callers := s.callers[r := Returned])
  }

  function Moves(s: State, r: Req, c: Caller): State { s.(callers := s.callers[r := c]) }

  ghost function AfterCall(s: State, r: Req, l: CallStep): State
    requires CanCall(s, r, l)
  {
    match l
    case Start(p, stream) =>
      s.(callers := s.callers[r := Routed(QId(p, s.lf.desks[p].route.value))],
         streaming := if stream then s.streaming + {r} else s.streaming - {r},
         log := s.log[r := []], hooks := s.hooks[r := 0])
    case Prepare(m, cs) => Moves(s, r, Prepared(s.callers[r].q)).(st := Acquire(s.st, r, m, cs))
    case CheckClosing =>
      Moves(s, r, if Closing(s, s.callers[r].q) then Rerouting(s.callers[r].q) else Offering(s.callers[r].q))
    case Reroute(p) =>
      if IsRouted(s.lf, p) && QId(p, s.lf.desks[p].route.value) != s.callers[r].q
      then Moves(s, r, Candidate(QId(p, s.lf.desks[p].route.value)))
      else Refuse(s, r)
    case CheckCandidate => if Closing(s, s.callers[r].q) then Refuse(s, r) else Moves(s, r, Offering(s.callers[r].q))
    case Send =>
      var q := s.callers[r].q;
      Moves(s, r, Awaiting(s.st.at.held[ByProducer(r)])).(
        st := s.st.(at := Offer(s.st.at, ByProducer(r), q)),
        hist := s.hist[q := s.hist[q].(through := s.hist[q].through + {r})])
    case SawDone => Refuse(s, r)
    case SawCancel => Refuse(s, r)
    case SawFull => Moves(s, r, Full(s.callers[r].q))
    case DropExcess => Refuse(s, r)
    case Recheck => if Closing(s, s.callers[r].q) then Refuse(s, r) else Moves(s, r, Blocking(s.callers[r].q))
    case ReceiveReply(c) => Moves(s, r, Answered(s.callers[r].m, c.port)).(st := Receive(s.st, c))
    case Finish =>
      Moves(s, r, Returned).(
        st := Recycle(s.st, s.callers[r].m),
        hooks := s.hooks[r := s.hooks[r] + if s.callers[r].port == Stream then 0 else 1])
    case Abandon => Moves(s, r, Abandoned(s.callers[r].m))
    case Cancel => s.(cancelled := s.cancelled + {r})
  }

  // ----- settling a message in hand -----

  /** The goroutine `h` is finished with its message; `bill` when it runs the post-LLM hooks itself. */
  function SettleBy(s: State, h: Holder, reply: set<Chan>, fate: Fate, bill: bool): State
    requires LogsFor(s, h)
  {
    var r := OwnerOf(s, h);
    s.(st := Settle(s.st, h, reply),
       log := s.log[r := s.log[r] + [fate]],
       hooks := s.hooks[r := s.hooks[r] + if bill then 1 else 0])
  }

  // ----- workers -----

  predicate WorkerAt(s: State, w: WId, pc: WorkerPc) {
    IsQueue(s.lf, w.q) && w.k in QueueOf(s.lf, w.q).crew && QueueOf(s.lf, w.q).crew[w.k] == pc
  }

  function MoveWorker(w: WId, to: WorkerPc): LifeStep { OnDesk(w.q.p, WorkerMove(w.q.n, w.k, to)) }

  ghost predicate CanWork(s: State, w: WId, l: WorkStep) {
    && CanLife(s.lf, WorkLife(s, w, l))
    && match l
    case Pick => WorkerAt(s, w, Idle) && HasItem(s.st.at, w.q) && ByWorker(w) !in s.st.at.held
    case SawClosed => WorkerAt(s, w, Idle) && QueueOf(s.lf, w.q).done
    case Answer(c) =>
      && WorkerAt(s, w, Serving) && LogsFor(s, ByWorker(w)) && CanReply(s, ByWorker(w), c)
      && (c.port == Failure || (c.port == Stream <==> OwnerOf(s, ByWorker(w)) in s.streaming))
    case CallerLeft => WorkerAt(s, w, Serving) && LogsFor(s, ByWorker(w)) && OwnerOf(s, ByWorker(w)) in s.cancelled
    case TimeOut(c) =>
      && WorkerAt(s, w, Serving) && LogsFor(s, ByWorker(w))
      && c in s.st.rp.wires[MsgOf(s, ByWorker(w))] && c in s.st.rp.full
    case Panic => WorkerAt(s, w, Serving) && LogsFor(s, ByWorker(w))
    case Restart => WorkerAt(s, w, Panicked)
    case Leave => WorkerAt(s, w, Draining) && ByWorker(w) !in s.draining
  }

  /** The step of the control side a worker step makes. */
  function WorkLife(s: State, w: WId, l: WorkStep): LifeStep {
    match l
    case Pick => MoveWorker(w, Serving)
    case SawClosed => MoveWorker(w, Draining)
    case Answer(_) => MoveWorker(w, Idle)
    case CallerLeft => MoveWorker(w, Idle)
    case TimeOut(_) => MoveWorker(w, Idle)
    case Panic => MoveWorker(w, Panicked)
    case Restart => MoveWorker(w, if Closing(s, w.q) then Leaving else Idle)
    case Leave => MoveWorker(w, Leaving)
  }

  ghost function AfterWork(s: State, w: WId, l: WorkStep): State
    requires CanWork(s, w, l)
  {
    var h := ByWorker(w);
    var moved := match l
      case Pick => s.(st := s.st.(at := Take(s.st.at, w.q, h)))
      case SawClosed => s.(draining := s.draining[h := w.q])
      case Answer(c) => SettleBy(s, h, {c}, Replied(c.port), false)
      case CallerLeft => SettleBy(s, h, {}, CallerGone, OwnerOf(s, h) !in s.streaming)
      case TimeOut(c) => SettleBy(s, h, {}, TimedOut, false)
      case Panic => SettleBy(s, h, {}, Dropped, false)
      case Restart => s
      case Leave => s;
    moved.(lf := AfterLife(s.lf, WorkLife(s, w, l)))
  }

  // ----- drain loops -----

  ghost predicate CanDrain(s: State, h: Holder, l: DrainStep) {
    && h in s.draining
    && match l
       case DrainTake => h !in s.st.at.held && HasItem(s.st.at, s.draining[h])
       case DrainReply(c) => LogsFor(s, h) && CanReply(s, h, c) && c.port == Failure
       case DrainCallerLeft => LogsFor(s, h) && OwnerOf(s, h) in s.cancelled
       case DrainEnd => h !in s.st.at.held && IsDrained(s.st.at, s.draining[h]) && s.draining[h] in s.hist
  }

  ghost function AfterDrain(s: State, h: Holder, l: DrainStep): State
    requires CanDrain(s, h, l)
  {
    match l
    case DrainTake => s.(st := s.st.(at := Take(s.st.at, s.draining[h], h)))
    case DrainReply(c) => SettleBy(s, h, {c}, Replied(c.port), false)
    case DrainCallerLeft => SettleBy(s, h, {}, CallerGone, false)
    case DrainEnd =>
      var q := s.draining[h];
      s.(draining := s.draining - {h},
         hist := s.hist[q := s.hist[q].(quiet := s.hist[q].quiet || Unstaffed(s.lf, q))])
  }

  // ----- the transfer of UpdateProvider -----

  predicate Transfers(s: State, p: Provider, pc: UpdatePc) {
    p in s.lf.desks && s.lf.desks[p].ctl.Updating? && s.lf.desks[p].ctl.upc == pc
  }

  function OldQueue(s: State, p: Provider): QId
    requires p in s.lf.desks && s.lf.desks[p].ctl.Updating?
  {
    QId(p, s.lf.desks[p].ctl.prev)
  }

  function NextQueue(s: State, p: Provider): QId
    requires p in s.lf.desks && s.lf.desks[p].ctl.Updating?
  {
    QId(p, s.lf.desks[p].ctl.next)
  }

  ghost predicate CanMove(s: State, p: Provider, l: MoveStep) {
    && CanLife(s.lf, MoveLife(p, l))
    && match l
    case MoveTake => Transfers(s, p, UMoving) && HasItem(s.st.at, OldQueue(s, p)) && ByController(p) !in s.st.at.held
    case MovePut =>
      && Transfers(s, p, UHolding) && InHandOf(s, ByController(p)) && HasRoom(s.st.at, NextQueue(s, p))
      && OldQueue(s, p) in s.hist && NextQueue(s, p) in s.hist
    case MoveOverflow => Transfers(s, p, UHolding) && !HasRoom(s.st.at, NextQueue(s, p))
    case MoveEnd => Transfers(s, p, UMoving) && IsDrained(s.st.at, OldQueue(s, p))
    case CancelEnd => Transfers(s, p, UCancelling) && ByController(p) !in s.draining
  }

  function MoveLife(p: Provider, l: MoveStep): LifeStep {
    match l
    case MoveTake => OnDesk(p, Advance(UHolding))
    case MovePut => OnDesk(p, Advance(UMoving))
    case MoveOverflow => OnDesk(p, Advance(UCancelling))
    case MoveEnd => OnDesk(p, Advance(URetiring))
    case CancelEnd => OnDesk(p, Advance(URetiring))
  }

  function MovedOn(x: History, m: Msg, r: Req, q: QId): History {
    x.(movedOut := x.movedOut[r := q], moved := x.moved[q := (if q in x.moved then x.moved[q] else []) + [m]])
  }

  ghost function AfterMove(s: State, p: Provider, l: MoveStep): State
    requires CanMove(s, p, l)
  {
    var h := ByController(p);
    var moved := match l
      case MoveTake => s.(st := s.st.(at := Take(s.st.at, OldQueue(s, p), h)))
      case MovePut =>
        var m, r, q, q' := MsgOf(s, h), OwnerOf(s, h), OldQueue(s, p), NextQueue(s, p);
        s.(st := s.st.(at := Offer(s.st.at, h, q')),
           hist := s.hist[q := MovedOn(s.hist[q], m, r, q')][q' := s.hist[q'].(through := s.hist[q'].through + {r})])
      case MoveOverflow => s.(draining := s.draining[h := OldQueue(s, p)])
      case MoveEnd => s
      case CancelEnd => s;
    moved.(lf := AfterLife(s.lf, MoveLife(p, l)))
  }

  // ----- controllers -----

  function ControlLife(c: ControlStep): LifeStep {
    match c
    case NewQueue(p, n, _, k) => OnDesk(p, Create(n, k))
    case Replace(p, n, _, k) => OnDesk(p, Update(n, k))
    case Signal(ll) => ll
    case SweepRemoved(p) => OnDesk(p, RemoveJoin)
    case SweptRemoved(p) => OnDesk(p, RemoveSwept)
    case SweepRetired(q) => OnDesk(q.p, CleanupJoin(q.n))
    case SweptRetired(q) => OnDesk(q.p, CleanupUnretire(q.n))
    case SweepShut(p) => ShutSweep(p)
    case SweptShut => ShutFinish
    case Plain(ll) => ll
  }

  ghost predicate CanControl(s: State, c: ControlStep) {
    && CanLife(s.lf, ControlLife(c))
    && match c
       case NewQueue(p, n, capacity, _) => capacity > 0 && QId(p, n) !in s.st.at.buffers
       case Replace(p, n, capacity, _) =>
         capacity > 0 && QId(p, n) !in s.st.at.buffers
       case Signal(ll) => SignalTarget(s.lf, ll).Some? && SignalTarget(s.lf, ll).value in s.hist
       case SweepRemoved(p) => true
       case SweptRemoved(p) => ByController(p) !in s.draining
       case SweepRetired(q) => true
       case SweptRetired(q) => ByCleanup(q) !in s.draining
       case SweepShut(p) => ByShutdown !in s.draining
       case SweptShut => ByShutdown !in s.draining
       case Plain(ll) => IsPlain(s.lf, ll)
  }

  ghost function AfterControl(s: State, c: ControlStep): State
    requires CanControl(s, c)
  {
    var moved := match c
      case NewQueue(p, n, capacity, _) =>
        s.(st := s.st.(at := AddBuffer(s.st.at, QId(p, n), capacity)), hist := s.hist[QId(p, n) := NO_HISTORY])
      case Replace(p, n, capacity, _) =>
        s.(st := s.st.(at := AddBuffer(s.st.at, QId(p, n), capacity)), hist := s.hist[QId(p, n) := NO_HISTORY])
      case Signal(ll) =>
        var q := SignalTarget(s.lf, ll).value;
        s.(hist := s.hist[q := s.hist[q].(armedAt := if Closing(s, q) then s.hist[q].armedAt else Armed(s, q))])
      case SweepRemoved(p) => s.(draining := s.draining[ByController(p) := QId(p, s.lf.desks[p].ctl.gone)])
      case SweptRemoved(p) => s
      case SweepRetired(q) => s.(draining := s.draining[ByCleanup(q) := q])
      case SweptRetired(q) => s
      case SweepShut(p) => s.(draining := s.draining[ByShutdown := QId(p, s.lf.desks[p].route.value)])
      case SweptShut => s
      case Plain(ll) => s;
    moved.(lf := AfterLife(s.lf, ControlLife(c)))
  }

  // ----- the system -----

  ghost predicate Enabled(s: State, l: Label) {
    match l
    case Call(r, c) => CanCall(s, r, c)
    case Work(w, c) => CanWork(s, w, c)
    case Drain(h, c) => CanDrain(s, h, c)
    case Move(p, c) => CanMove(s, p, c)
    case Control(c) => CanControl(s, c)
  }

  ghost function Next(s: State, l: Label): State
    requires Enabled(s, l)
  {
    match l
    case Call(r, c) => AfterCall(s, r, c)
    case Work(w, c) => AfterWork(s, w, c)
    case Drain(h, c) => AfterDrain(s, h, c)
    case Move(p, c) => AfterMove(s, p, c)
    case Control(c) => AfterControl(s, c)
  }
}
