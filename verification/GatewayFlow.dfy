/**
 Where the messages of one queue go. Every step of the gateway has one of eight effects on the flow
 of messages; each effect keeps the account of every queue: who could still send into it after it
 was signalled, what became of every request that went through it, and in which order an update
 moved messages out of it.
 */
module GatewayFlow {
  import opened Options
  import opened Sequences
  import opened MessageStore
  import opened QueueLife
  import opened Gateway
  import opened GatewayDuties
  import opened GatewayCallers

  datatype Effect =
    | Nothing
    | Sends(r: Req, q: QId)
    | Takes(q: QId, h: Holder)
    | Puts(p: Provider)
    | Settles(h: Holder)
    | Adds(q: QId)
    | Signals(q: QId)
    | Ends(h: Holder)

  function EffectOfCall(s: State, r: Req, l: CallStep): Effect {
    if l.Send? && r in s.callers && IsOffer(s.callers[r]) then Sends(r, s.callers[r].q) else Nothing
  }

  function EffectOfWork(w: WId, l: WorkStep): Effect {
    match l
    case Pick => Takes(w.q, ByWorker(w))
    case SawClosed => Nothing
    case Restart => Nothing
    case Leave => Nothing
    case _ => Settles(ByWorker(w))
  }

  function EffectOfDrain(s: State, h: Holder, l: DrainStep): Effect {
    match l
    case DrainTake => if h in s.draining then Takes(s.draining[h], h) else Nothing
    case DrainEnd => Ends(h)
    case _ => Settles(h)
  }

  function EffectOfMove(s: State, p: Provider, l: MoveStep): Effect {
    match l
    case MoveTake => if Transfers(s, p, UMoving) then Takes(OldQueue(s, p), ByController(p)) else Nothing
    case MovePut => Puts(p)
    case _ => Nothing
  }

  function EffectOfControl(s: State, c: ControlStep): Effect {
    match c
    case NewQueue(p, n, _, _) => Adds(QId(p, n))
    case Replace(p, n, _, _) => Adds(QId(p, n))
    case Signal(ll) => if SignalTarget(s.lf, ll).Some? then Signals(SignalTarget(s.lf, ll).value) else Nothing
    case _ => Nothing
  }

  function EffectOf(s: State, l: Label): Effect {
    match l
    case Call(r, c) => EffectOfCall(s, r, c)
    case Work(w, c) => EffectOfWork(w, c)
    case Drain(h, c) => EffectOfDrain(s, h, c)
    case Move(p, c) => EffectOfMove(s, p, c)
    case Control(c) => EffectOfControl(s, c)
  }

  /** The queue whose message the goroutine `h` has in hand. */
  function SourceOf(s: State, h: Holder): Option<QId> {
    if h in s.draining then Some(s.draining[h])
    else match DutyOf(s.lf, h)
      case Carries(q) => Some(q)
      case _ => None
  }

  predicate IsSentAs(c: Caller, m: Msg) { (c.Awaiting? || c.Abandoned?) && c.m == m }

  // ----- what every step leaves alone -----

  /** A request under way stays with its caller; logs only grow. */
  ghost predicate CallersGoOn(s: State, s': State) {
    && (forall r :: r in s.callers ==> r in s'.callers)
    && (forall r :: r in s.callers && r in s.log ==> r in s'.log && |s.log[r]| <= |s'.log[r]|)
    && (forall r, m :: r in s.callers && IsSentAs(s.callers[r], m) && m in s.st.at.home && IsUnderway(s.st.at.home[m]) ==>
          r in s'.callers && IsSentAs(s'.callers[r], m))
  }

  /** A caller becomes able to send into a queue only by finding it open. */
  ghost predicate OffersChecked(s: State, s': State) {
    forall r :: r in s'.callers && IsOffer(s'.callers[r]) ==>
      || (r in s.callers && IsOffer(s.callers[r]) && s.callers[r].q == s'.callers[r].q)
      || !Closing(s, s'.callers[r].q)
  }

  ghost predicate OwnersKept(s: State, s': State) {
    forall m :: m in s.st.at.home && IsUnderway(s.st.at.home[m]) && m in s.st.rp.owner ==>
      m in s'.st.rp.owner && s'.st.rp.owner[m] == s.st.rp.owner[m]
  }

  ghost predicate Background(s: State, s': State) {
    CallersGoOn(s, s') && OffersChecked(s, s') && OwnersKept(s, s')
  }

  /** Messages under way stay where they are. */
  ghost predicate Undisturbed(s: State, s': State) {
    && s'.st.at.buffers == s.st.at.buffers
    && (forall m :: m in s.st.at.home && IsUnderway(s.st.at.home[m]) ==> m in s'.st.at.home && s'.st.at.home[m] == s.st.at.home[m])
    && (forall h :: h in s.st.at.held && !h.ByProducer? ==> h in s'.st.at.held && s'.st.at.held[h] == s.st.at.held[h])
  }

  ghost predicate Has(s: State, s': State, e: Effect) {
    match e
    case Nothing => Undisturbed(s, s') && s'.hist == s.hist
    case Sends(r, q) =>
      && ByProducer(r) in s.st.at.held && HasRoom(s.st.at, q) && q in s.hist
      && r in s.callers && IsOffer(s.callers[r]) && s.callers[r].q == q
      && s'.st.at == Offer(s.st.at, ByProducer(r), q)
      && s'.callers == s.callers[r := Awaiting(s.st.at.held[ByProducer(r)])]
      && s'.st.rp == s.st.rp
      && s'.hist == s.hist[q := s.hist[q].(through := s.hist[q].through + {r})]
    case Takes(q, h) =>
      && HasItem(s.st.at, q) && h !in s.st.at.held && !h.ByProducer?
      && s'.st.at == Take(s.st.at, q, h) && s'.hist == s.hist && SourceOf(s', h) == Some(q)
    case Puts(p) =>
      && Transfers(s, p, UHolding) && InHandOf(s, ByController(p)) && HasRoom(s.st.at, NextQueue(s, p))
      && OldQueue(s, p) in s.hist && NextQueue(s, p) in s.hist
      && s'.st.at == Offer(s.st.at, ByController(p), NextQueue(s, p))
      && s'.hist == s.hist[OldQueue(s, p) := MovedOn(s.hist[OldQueue(s, p)], MsgOf(s, ByController(p)),
                                                     OwnerOf(s, ByController(p)), NextQueue(s, p))]
                          [NextQueue(s, p) := s.hist[NextQueue(s, p)].(
                              through := s.hist[NextQueue(s, p)].through + {OwnerOf(s, ByController(p))})]
    case Settles(h) =>
      && InHandOf(s, h) && !h.ByProducer?
      && s'.st.at == LetGo(s.st.at, h) && s'.hist == s.hist
      && OwnerOf(s, h) in s'.log && s'.log[OwnerOf(s, h)] != []
    case Adds(q) =>
      && q !in s.st.at.buffers && q in s'.st.at.buffers && s'.st.at == AddBuffer(s.st.at, q, s'.st.at.buffers[q].capacity)
      && s'.st.at.buffers[q].capacity > 0
      && s'.hist == s.hist[q := NO_HISTORY]
    case Signals(q) =>
      && s'.st == s.st && q in s.hist && s'.callers == s.callers
      && s'.hist == s.hist[q := s.hist[q].(armedAt := if Closing(s, q) then s.hist[q].armedAt else Armed(s, q))]
    case Ends(h) =>
      && s'.st == s.st && s'.lf == s.lf && s'.callers == s.callers
      && h in s.draining && IsDrained(s.st.at, s.draining[h]) && s.draining[h] in s.hist
      && s'.hist == s.hist[s.draining[h] := s.hist[s.draining[h]].(
                             quiet := s.hist[s.draining[h]].quiet || Unstaffed(s.lf, s.draining[h]))]
  }

  // ----- every step has its effect -----

  lemma RefuseIsHarmless(s: State, r: Req)
    requires HandsOk(s.st.at) && InHandOf(s, ByProducer(r)) && r in s.callers && Holds(s.callers[r])
    ensures Has(s, Refuse(s, r), Nothing) && Background(s, Refuse(s, r))
  {
    var m := s.st.at.held[ByProducer(r)];
    hide Unwire;
    UnwireOwners(s, Refuse(s, r), m);
  }

  lemma MovesIsHarmless(s: State, r: Req, c: Caller)
    requires r in s.callers && Holds(s.callers[r]) && (IsOffer(c) ==> !Closing(s, c.q))
    ensures Has(s, Moves(s, r, c), Nothing) && Background(s, Moves(s, r, c))
  {
  }

  lemma PrepareIsHarmless(s: State, r: Req, m: Msg, cs: set<Chan>)
    requires PlacesOk(s.st.at) && CanCall(s, r, Prepare(m, cs))
    ensures Has(s, AfterCall(s, r, Prepare(m, cs)), Nothing) && Background(s, AfterCall(s, r, Prepare(m, cs)))
  {
    hide WireUp, HandsOk, QueuedOk, BuffersOk;
    WireUpEffect(s.st.rp, r, m, cs);
  }

  lemma FinishIsHarmless(s: State, r: Req)
    requires CanCall(s, r, Finish) && CallerOk(s, r)
    ensures Has(s, AfterCall(s, r, Finish), Nothing) && Background(s, AfterCall(s, r, Finish))
  {
    hide Unwire;
    UnwireOwners(s, AfterCall(s, r, Finish), s.callers[r].m);
  }

  lemma ReceiveIsHarmless(s: State, r: Req, c: Chan)
    requires CanCall(s, r, ReceiveReply(c)) && ReceivesReply(s, r, s.callers[r].m, c)
    ensures Has(s, AfterCall(s, r, ReceiveReply(c)), Nothing) && Background(s, AfterCall(s, r, ReceiveReply(c)))
  {
  }

  lemma SendHas(s: State, r: Req)
    requires CanCall(s, r, Send)
    ensures Has(s, AfterCall(s, r, Send), Sends(r, s.callers[r].q)) && Background(s, AfterCall(s, r, Send))
  {
  }

  lemma StartIsHarmless(s: State, r: Req, p: Provider, stream: bool)
    requires CanCall(s, r, Start(p, stream))
    ensures Has(s, AfterCall(s, r, Start(p, stream)), Nothing) && Background(s, AfterCall(s, r, Start(p, stream)))
  {
  }

  lemma LeavingIsHarmless(s: State, r: Req, l: CallStep)
    requires CanCall(s, r, l) && (l.Abandon? || l.Cancel?)
    ensures Has(s, AfterCall(s, r, l), Nothing) && Background(s, AfterCall(s, r, l))
  {
  }

  lemma OwnIsHarmless(s: State, r: Req, l: CallStep)
    requires HandsOk(s.st.at) && CanCall(s, r, l) && IsOwnBusiness(l)
    ensures Has(s, AfterCall(s, r, l), Nothing) && Background(s, AfterCall(s, r, l))
  {
    hide Has, Background, CanCall, AfterCall, HandsOk, Refuse, Moves, Closing, InHandOf, IsOwnBusiness;
    OwnBusiness(s, r, l);
    if InHandOf(s, ByProducer(r)) && AfterCall(s, r, l) == Refuse(s, r) { RefuseIsHarmless(s, r); }
    else { MovesIsHarmless(s, r, AfterCall(s, r, l).callers[r]); }
  }

  lemma CallHas(s: State, r: Req, l: CallStep)
    requires Base(s) && CanCall(s, r, l)
    ensures Has(s, AfterCall(s, r, l), EffectOfCall(s, r, l)) && Background(s, AfterCall(s, r, l))
  {
    hide Has, Background, AfterCall, CallersOk, OwnersOk, CallerOk, CanAcquire, WiresOk, FullOk, Linked, HandsOk, QueuedOk, BuffersOk, PoolOk;
    hide InHandOf, HasRoom, Closing, IsDone, IsRouted, IsOffer;
    if r in s.callers { RefuseCaller(s, r); }
    match l
    case Start(p, stream) => StartIsHarmless(s, r, p, stream);
    case Prepare(m, cs) => PrepareIsHarmless(s, r, m, cs);
    case Send => SendHas(s, r);
    case ReceiveReply(c) => ReceiveSlot(s, r, c); ReceiveIsHarmless(s, r, c);
    case Finish => FinishIsHarmless(s, r);
    case Abandon => LeavingIsHarmless(s, r, l);
    case Cancel => LeavingIsHarmless(s, r, l);
    case _ => OwnIsHarmless(s, r, l);
  }

  lemma PickSource(s: State, w: WId)
    requires CanWork(s, w, Pick) && DutyOk(s, ByWorker(w))
    ensures SourceOf(AfterWork(s, w, Pick), ByWorker(w)) == Some(w.q)
  {
    hide CanLife, AfterLife, DutyOf;
    WorkerDutyMoves(s.lf, w, Serving);
  }

  lemma WorkBackground(s: State, w: WId, l: WorkStep)
    requires CanWork(s, w, l)
    ensures Background(s, AfterWork(s, w, l))
  {
    hide CanLife, AfterLife, WorkLife, CanReply, HasItem, Take, LetGo, WorkerAt, Closing;
  }

  lemma WorkHas(s: State, w: WId, l: WorkStep)
    requires CanWork(s, w, l) && DutyOk(s, ByWorker(w))
    ensures Has(s, AfterWork(s, w, l), EffectOfWork(w, l)) && Background(s, AfterWork(s, w, l))
  {
    hide CanLife, AfterLife, DutyOf, WorkLife, Background, CanReply;
    WorkBackground(s, w, l);
    if l.Pick? { PickSource(s, w); }
  }

  lemma DrainHas(s: State, h: Holder, l: DrainStep)
    requires CanDrain(s, h, l) && DutyOk(s, h)
    ensures Has(s, AfterDrain(s, h, l), EffectOfDrain(s, h, l)) && Background(s, AfterDrain(s, h, l))
  {
    hide DutyOf;
  }

  lemma MoveBackground(s: State, p: Provider, l: MoveStep)
    requires CanMove(s, p, l)
    ensures Background(s, AfterMove(s, p, l))
  {
    hide CanLife, AfterLife, MoveLife;
  }

  lemma MoveHas(s: State, p: Provider, l: MoveStep)
    requires CanMove(s, p, l) && DutyOk(s, ByController(p))
    ensures Has(s, AfterMove(s, p, l), EffectOfMove(s, p, l)) && Background(s, AfterMove(s, p, l))
  {
    hide CanLife, AfterLife, DutyOf, Background;
    MoveBackground(s, p, l);
    if l.MoveTake? { CtlDutyMoves(s.lf, p, UHolding); }
  }

  lemma ControlBackground(s: State, c: ControlStep)
    requires CanControl(s, c)
    ensures Background(s, AfterControl(s, c))
  {
    hide CanLife, AfterLife, ControlLife, Armed;
  }

  lemma ControlHas(s: State, c: ControlStep)
    requires CanControl(s, c)
    ensures Has(s, AfterControl(s, c), EffectOfControl(s, c)) && Background(s, AfterControl(s, c))
  {
    hide CanLife, AfterLife, ControlLife, Background, Armed;
    ControlBackground(s, c);
  }

  lemma StepHas(s: State, l: Label)
    requires Enabled(s, l) && Base(s) && DutiesOk(s)
    ensures Has(s, Next(s, l), EffectOf(s, l)) && Background(s, Next(s, l))
  {
    hide Has, Background, Base, DutyOk, CanCall, CanWork, CanDrain, CanMove, CanControl;
    hide AfterCall, AfterWork, AfterDrain, AfterMove, AfterControl;
    match l
    case Call(r, c) => CallHas(s, r, c);
    case Work(w, c) => WorkHas(s, w, c);
    case Drain(h, c) => DrainHas(s, h, c);
    case Move(p, c) => MoveHas(s, p, c);
    case Control(c) => ControlHas(s, c);
  }

  // ----- the control side of a step -----

  /** The step of the control side that a label makes, if any. */
  function LifeOf(s: State, l: Label): Option<LifeStep> {
    match l
    case Work(w, c) => Some(WorkLife(s, w, c))
    case Move(p, c) => Some(MoveLife(p, c))
    case Control(c) => Some(ControlLife(c))
    case _ => None
  }

  lemma LifeOfStep(s: State, l: Label)
    requires Enabled(s, l)
    ensures match LifeOf(s, l)
            case Some(ll) => CanLife(s.lf, ll) && Next(s, l).lf == AfterLife(s.lf, ll)
            case None => Next(s, l).lf == s.lf
  {
    hide CanLife, AfterLife, WorkLife, MoveLife, ControlLife, AfterCall, AfterDrain, AfterWork, AfterMove, AfterControl;
    match l
    case Call(r, c) => CallFrame(s, r, c);
    case Work(w, c) => WorkFrame(s, w, c, ByShutdown);
    case Drain(h, c) => DrainLife(s, h, c);
    case Move(p, c) => MoveFrame(s, p, c, ByShutdown);
    case Control(c) => ControlFrame(s, c, ByShutdown);
  }

  lemma DrainLife(s: State, h: Holder, l: DrainStep)
    requires CanDrain(s, h, l)
    ensures AfterDrain(s, h, l).lf == s.lf
  {
  }

  /** Queues appear only with `Adds`, and are signalled only with `Signals`. */
  lemma LifeMatchesEffect(s: State, l: Label, q: QId)
    requires Enabled(s, l) && LifeOf(s, l).Some?
    ensures AddsQueue(LifeOf(s, l).value, q) <==> EffectOf(s, l) == Adds(q)
    ensures SignalTarget(s.lf, LifeOf(s, l).value) == Some(q) ==> EffectOf(s, l) == Signals(q)
    ensures EffectOf(s, l) == Signals(q) ==> SignalTarget(s.lf, LifeOf(s, l).value) == Some(q)
  {
    hide CanLife, CanDrain, CanCall, CanReply;
  }

  ghost predicate LifeGoesOn(s: State, s': State, e: Effect, q: QId) {
    && (IsQueue(s'.lf, q) <==> IsQueue(s.lf, q) || e == Adds(q))
    && (Closing(s', q) <==> Closing(s, q) || e == Signals(q))
    && (Unstaffed(s.lf, q) ==> Unstaffed(s'.lf, q))
    && (e == Signals(q) ==> IsQueue(s.lf, q))
  }

  lemma LifeOfEffect(s: State, l: Label, q: QId)
    requires Enabled(s, l)
    ensures LifeGoesOn(s, Next(s, l), EffectOf(s, l), q)
  {
    hide CanLife, AfterLife, LifeOf, Next, Enabled, EffectOf, AddsQueue, SignalTarget;
    LifeOfStep(s, l);
    if LifeOf(s, l).Some? {
      LifeMatchesEffect(s, l, q);
      ClosingEffect(s.lf, LifeOf(s, l).value, q);
      if Unstaffed(s.lf, q) { UnstaffedStable(s.lf, LifeOf(s, l).value, q); }
    } else {
      NoLifeEffect(s, l, q);
    }
  }

  lemma NoLifeEffect(s: State, l: Label, q: QId)
    requires LifeOf(s, l) == None
    ensures EffectOf(s, l) != Adds(q) && EffectOf(s, l) != Signals(q)
  {
  }

  /** All that the accounts below need to know about a step. */
  ghost predicate Steps(s: State, s': State, e: Effect) {
    Has(s, s', e) && Background(s, s') && forall q :: LifeGoesOn(s, s', e, q)
  }

  lemma StepIsStep(s: State, l: Label)
    requires Enabled(s, l) && Base(s) && DutiesOk(s)
    ensures Steps(s, Next(s, l), EffectOf(s, l))
  {
    hide Enabled, Next, Base, DutiesOk, EffectOf, Has, Background, LifeGoesOn;
    StepHas(s, l);
    forall q ensures LifeGoesOn(s, Next(s, l), EffectOf(s, l), q) {
      LifeOfEffect(s, l, q);
    }
  }

  // ----- queues, buffers and histories agree -----

  lemma QueuesKept(s: State, s': State, e: Effect)
    requires QueuesMatch(s) && CapacityOk(s) && Steps(s, s', e)
    ensures QueuesMatch(s') && CapacityOk(s')
  {
    hide IsQueue, Closing, Unstaffed, Background;
    forall q ensures (IsQueue(s'.lf, q) <==> q in s'.st.at.buffers) && (q in s'.hist <==> q in s'.st.at.buffers) {
      assert LifeGoesOn(s, s', e, q);
      match e case _ => {}
    }
    assert CapacityOk(s') by {
      match e case _ => {}
    }
  }

  // ----- late senders -----

  /** A caller that can still send into a signalled queue passed its closing check before the signal. */
  ghost predicate ArmedOk(s: State) {
    forall r :: r in s.callers && IsOffer(s.callers[r]) && Closing(s, s.callers[r].q) ==>
      s.callers[r].q in s.hist && r in s.hist[s.callers[r].q].armedAt
  }

  lemma ArmedKept(s: State, s': State, e: Effect)
    requires QueuesMatch(s) && ArmedOk(s) && Steps(s, s', e)
    ensures ArmedOk(s')
  {
    hide Unstaffed, CallersGoOn, OwnersKept, Undisturbed, Offer, Take, LetGo, AddBuffer, SourceOf, IsDrained;
    forall r | r in s'.callers && IsOffer(s'.callers[r]) && Closing(s', s'.callers[r].q)
      ensures s'.callers[r].q in s'.hist && r in s'.hist[s'.callers[r].q].armedAt
    {
      var q := s'.callers[r].q;
      assert LifeGoesOn(s, s', e, q);
      assert e == Signals(q) ==> IsQueue(s.lf, q) && q in s.hist;
      match e case _ => {}
    }
  }

  /** A drain loop found the queue empty after its workers had exited: none will serve it again. */
  ghost predicate QuietOk(s: State) {
    forall q :: q in s.hist && s.hist[q].quiet ==> Unstaffed(s.lf, q)
  }

  lemma QuietKept(s: State, s': State, e: Effect)
    requires QuietOk(s) && Steps(s, s', e)
    ensures QuietOk(s')
  {
    hide Unstaffed, Background, Closing, IsQueue, Offer, Take, LetGo, AddBuffer, Undisturbed;
    forall q | q in s'.hist && s'.hist[q].quiet ensures Unstaffed(s'.lf, q) {
      assert LifeGoesOn(s, s', e, q);
      match e case _ => {}
    }
  }

  /** From then on, whatever is found in it was sent by a caller whose check preceded the signal. */
  ghost predicate LateOk(s: State) {
    forall q, m :: q in s.hist && s.hist[q].quiet && q in s.st.at.buffers && m in s.st.at.buffers[q].items ==>
      m in s.st.rp.owner && s.st.rp.owner[m] in s.hist[q].armedAt
  }

  lemma UnstaffedIsClosing(s: State, q: QId)
    requires DesksOk(s.lf.desks) && Unstaffed(s.lf, q)
    ensures Closing(s, q)
  {
    PlacedAt(s.lf.desks[q.p], q.n);
  }

  lemma SenderOwns(s: State, r: Req)
    requires CallersOk(s) && r in s.callers && IsOffer(s.callers[r])
    ensures ByProducer(r) in s.st.at.held && s.st.at.held[ByProducer(r)] in s.st.rp.owner
    ensures s.st.rp.owner[s.st.at.held[ByProducer(r)]] == r
  {
    assert CallerOk(s, r);
  }

  /** A message that is in a queue now and was not before was sent there, or moved there by an update. */
  lemma NewItem(s: State, s': State, e: Effect, q: QId, m: Msg)
    requires Has(s, s', e) && q in s'.st.at.buffers && m in s'.st.at.buffers[q].items
    ensures || (q in s.st.at.buffers && m in s.st.at.buffers[q].items)
            || (e.Sends? && e.q == q && AtPlace(s.st.at, m, InHand(ByProducer(e.r))))
            || (e.Puts? && NextQueue(s, e.p) == q)
  {
    match e case _ => {}
  }

  lemma QuietChange(s: State, s': State, e: Effect, q: QId)
    requires Has(s, s', e) && q in s'.hist && s'.hist[q].quiet
    ensures q in s.hist && (s.hist[q].quiet || (s'.st == s.st && IsDrained(s.st.at, q)))
    ensures s.hist[q].quiet && Closing(s, q) ==> s'.hist[q].armedAt == s.hist[q].armedAt
  {
    hide Undisturbed, Offer, Take, LetGo, Closing;
    match e case _ => {}
  }

  lemma LateKept(s: State, s': State, e: Effect)
    requires Base(s) && DesksOk(s.lf.desks) && ArmedOk(s) && QuietOk(s) && LateOk(s) && Steps(s, s', e)
    ensures LateOk(s')
  {
    hide Unstaffed, Closing, CallersOk, OwnersOk, DesksOk, Has, CallersGoOn, OffersChecked, WiresOk, FullOk, BuffersOk, HandsOk, PoolOk, AtPlace, ArmedOk;
    forall q, m | q in s'.hist && s'.hist[q].quiet && q in s'.st.at.buffers && m in s'.st.at.buffers[q].items
      ensures m in s'.st.rp.owner && s'.st.rp.owner[m] in s'.hist[q].armedAt
    {
      QuietChange(s, s', e, q);
      NewItem(s, s', e, q, m);
      if s.hist[q].quiet {
        UnstaffedIsClosing(s, q);
        if e.Sends? && e.q == q && AtPlace(s.st.at, m, InHand(ByProducer(e.r))) {
          LateSend(s, s', e, m);
        } else {
          NoLatePut(s, s', e, q);
        }
      }
    }
  }

  lemma LateSend(s: State, s': State, e: Effect, m: Msg)
    requires Has(s, s', e) && e.Sends? && AtPlace(s.st.at, m, InHand(ByProducer(e.r)))
    requires CallersOk(s) && ArmedOk(s) && Closing(s, e.q)
    ensures m in s'.st.rp.owner && s'.st.rp.owner[m] == e.r && e.q in s.hist && e.r in s.hist[e.q].armedAt
  {
    SenderOwns(s, e.r);
  }

  lemma NoLatePut(s: State, s': State, e: Effect, q: QId)
    requires Has(s, s', e) && Unstaffed(s.lf, q)
    ensures !(e.Puts? && NextQueue(s, e.p) == q)
  {
  }

  // ----- whose queue a goroutine is working for -----

  lemma SourceAfterWork(s: State, w: WId, l: WorkStep, h: Holder)
    requires CanWork(s, w, l) && DesksOk(s.lf.desks) && DutyOk(s, h)
    requires h in s.st.at.held && h in AfterWork(s, w, l).st.at.held && !h.ByProducer?
    ensures SourceOf(AfterWork(s, w, l), h) == SourceOf(s, h)
  {
    hide DutyOf, AfterLife, DesksOk, AfterWork;
    assert CanLife(s.lf, WorkLife(s, w, l));
    if h == ByWorker(w) {
      WorkerIsSettling(s, w, l);
    } else {
      WorkFrame(s, w, l, h);
      DutyEffect(s.lf, WorkLife(s, w, l), h);
    }
  }

  /** A worker with a message in hand does nothing but settle it. */
  lemma WorkerIsSettling(s: State, w: WId, l: WorkStep)
    requires CanWork(s, w, l) && DutyOk(s, ByWorker(w))
    ensures ByWorker(w) !in s.st.at.held || ByWorker(w) !in AfterWork(s, w, l).st.at.held
  {
    hide CanLife, AfterLife, WorkLife, CanReply;
  }

  lemma SourceAfterMove(s: State, p: Provider, l: MoveStep, h: Holder)
    requires CanMove(s, p, l) && DesksOk(s.lf.desks) && DutyOk(s, h)
    requires h in s.st.at.held && h in AfterMove(s, p, l).st.at.held && !h.ByProducer?
    ensures SourceOf(AfterMove(s, p, l), h) == SourceOf(s, h)
  {
    hide DutyOf, AfterLife, DesksOk, AfterMove;
    assert CanLife(s.lf, MoveLife(p, l));
    if h == ByController(p) {
      MoverKeepsSource(s, p, l);
    } else {
      MoveFrame(s, p, l, h);
      DutyEffect(s.lf, MoveLife(p, l), h);
    }
  }

  lemma MoverKeepsSource(s: State, p: Provider, l: MoveStep)
    requires CanMove(s, p, l) && DutyOk(s, ByController(p))
    requires ByController(p) in s.st.at.held && ByController(p) in AfterMove(s, p, l).st.at.held
    ensures SourceOf(AfterMove(s, p, l), ByController(p)) == SourceOf(s, ByController(p))
  {
    hide CanLife, AfterLife;
  }

  lemma SourceAfterControl(s: State, c: ControlStep, h: Holder)
    requires CanControl(s, c) && DesksOk(s.lf.desks) && DutyOk(s, h) && h in s.st.at.held && !h.ByProducer?
    ensures SourceOf(AfterControl(s, c), h) == SourceOf(s, h)
  {
    hide DutyOf, AfterLife, DesksOk, AfterControl, ControlLife, ControlActor;
    assert CanLife(s.lf, ControlLife(c));
    ControlFrame(s, c, h);
    if ControlActor(c) == Some(h) {
      SweeperIsFree(s, c);
    } else if c.Plain? {
      PlainControl(s, c);
      PlainDuty(s.lf, c.ll, h);
    } else {
      ControlIsNoActor(s, c, h);
      DutyEffect(s.lf, ControlLife(c), h);
    }
  }

  lemma SweeperIsFree(s: State, c: ControlStep)
    requires CanControl(s, c) && ControlActor(c).Some? && DutyOk(s, ControlActor(c).value)
    ensures ControlActor(c).value !in s.st.at.held
  {
    hide CanLife, AfterLife, DutyOf;
    assert CanLife(s.lf, ControlLife(c));
    SweepDuty(s.lf, c);
  }

  /** A goroutine keeps working for the same queue as long as it has the same message in hand. */
  lemma SourceKept(s: State, l: Label, h: Holder)
    requires Enabled(s, l) && DesksOk(s.lf.desks) && DutyOk(s, h)
    requires h in s.st.at.held && h in Next(s, l).st.at.held && !h.ByProducer?
    ensures SourceOf(Next(s, l), h) == SourceOf(s, h)
  {
    hide SourceOf, DesksOk, DutyOk, CanCall, CanWork, CanDrain, CanMove, CanControl;
    hide AfterCall, AfterWork, AfterDrain, AfterMove, AfterControl;
    match l
    case Call(r, c) => SourceAfterCall(s, r, c, h);
    case Work(w, c) => SourceAfterWork(s, w, c, h);
    case Drain(x, c) => SourceAfterDrain(s, x, c, h);
    case Move(p, c) => SourceAfterMove(s, p, c, h);
    case Control(c) => SourceAfterControl(s, c, h);
  }

  lemma SourceAfterCall(s: State, r: Req, l: CallStep, h: Holder)
    requires CanCall(s, r, l)
    ensures SourceOf(AfterCall(s, r, l), h) == SourceOf(s, h)
  {
    hide CanCall, AfterCall, DutyOf;
    CallFrame(s, r, l);
  }

  lemma SourceAfterDrain(s: State, x: Holder, l: DrainStep, h: Holder)
    requires CanDrain(s, x, l) && h in s.st.at.held
    ensures SourceOf(AfterDrain(s, x, l), h) == SourceOf(s, h)
  {
    hide DutyOf;
  }

  // ----- the account of every request that went through a queue -----

  /** `r`'s message is still in `q`, or in the hand of a goroutine that took it from `q`. */
  ghost predicate StillAt(s: State, q: QId, r: Req) {
    exists m :: MsgAt(s, q, r, m)
  }

  ghost predicate IsSettled(s: State, r: Req) { r in s.callers && r in s.log && s.log[r] != [] }

  /** An update moved `r` from `q` to another queue, which accounts for it from there. */
  ghost predicate WasMoved(s: State, q: QId, r: Req) {
    && q in s.hist && r in s.hist[q].movedOut && s.hist[q].movedOut[r] != q
    && s.hist[q].movedOut[r] in s.hist && r in s.hist[s.hist[q].movedOut[r]].through
  }

  ghost predicate Accounted(s: State, q: QId, r: Req) { StillAt(s, q, r) || IsSettled(s, r) || WasMoved(s, q, r) }

  ghost predicate FlowOk(s: State) {
    forall q, r :: q in s.hist && r in s.hist[q].through ==> Accounted(s, q, r)
  }

  ghost predicate SourcesKept(s: State, s': State) {
    forall h :: h in s.st.at.held && h in s'.st.at.held && !h.ByProducer? ==> SourceOf(s', h) == SourceOf(s, h)
  }

  /** `m` is `r`'s message, out of its caller's hand, in `q` or taken from `q`. */
  ghost predicate MsgAt(s: State, q: QId, r: Req, m: Msg) {
    && r in s.callers && IsSentAs(s.callers[r], m) && m in s.st.at.home
    && (s.st.at.home[m] == InQueue(q)
        || (s.st.at.home[m].InHand? && !s.st.at.home[m].h.ByProducer? && SourceOf(s, s.st.at.home[m].h) == Some(q)))
  }

  lemma SettledStays(s: State, s': State, r: Req)
    requires IsSettled(s, r) && CallersGoOn(s, s')
    ensures IsSettled(s', r)
  {
  }

  lemma MovedStays(s: State, s': State, e: Effect, q: QId, r: Req)
    requires QueuesMatch(s) && Has(s, s', e) && WasMoved(s, q, r)
    requires e.Puts? ==> OldQueue(s, e.p) != NextQueue(s, e.p)
    ensures WasMoved(s', q, r)
  {
    hide Undisturbed, Offer, Take, LetGo, IsQueue;
    match e case _ => {}
  }

  /** A message that its own step does not touch stays where it is. */
  lemma MsgStays(s: State, s': State, e: Effect, q: QId, r: Req, m: Msg)
    requires PlacesOk(s.st.at) && Has(s, s', e) && CallersGoOn(s, s') && SourcesKept(s, s') && MsgAt(s, q, r, m)
    requires e.Puts? ==> m != MsgOf(s, ByController(e.p))
    requires e.Settles? ==> m != MsgOf(s, e.h)
    ensures MsgAt(s', q, r, m)
  {
    hide SourceOf, BuffersOk, PoolOk, CallersGoOn, HasItem, Transfers;
    assert IsUnderway(s.st.at.home[m]);
    assert r in s'.callers && IsSentAs(s'.callers[r], m) by { SentStays(s, s', r, m); }
    match e
    case Takes(q0, h) => TakenFrom(s, q0);
    case _ =>
  }

  lemma TakenFrom(s: State, q: QId)
    requires QueuedOk(s.st.at) && HasItem(s.st.at, q)
    ensures var m := s.st.at.buffers[q].items[0]; m in s.st.at.home && s.st.at.home[m] == InQueue(q)
  {
    assert s.st.at.buffers[q].items[0] in s.st.at.buffers[q].items;
  }

  lemma SentStays(s: State, s': State, r: Req, m: Msg)
    requires CallersGoOn(s, s') && r in s.callers && IsSentAs(s.callers[r], m)
    requires m in s.st.at.home && IsUnderway(s.st.at.home[m])
    ensures r in s'.callers && IsSentAs(s'.callers[r], m)
  {
  }

  lemma SentOwner(s: State, r: Req, m: Msg)
    requires CallersOk(s) && r in s.callers && IsSentAs(s.callers[r], m)
    ensures m in s.st.rp.owner && s.st.rp.owner[m] == r
  {
    assert CallerOk(s, r);
  }

  lemma PutAccounts(s: State, s': State, e: Effect, q: QId, r: Req)
    requires Has(s, s', e) && e.Puts? && OldQueue(s, e.p) != NextQueue(s, e.p)
    requires r == OwnerOf(s, ByController(e.p)) && SourceOf(s, ByController(e.p)) == Some(OldQueue(s, e.p))
    requires SourceOf(s, ByController(e.p)) == Some(q)
    ensures WasMoved(s', q, r)
  {
    hide SourceOf;
  }

  /** The controller with a message in hand took it from the queue it is replacing. */
  lemma MoverSource(s: State, p: Provider)
    requires Transfers(s, p, UHolding) && DutyOk(s, ByController(p))
    ensures SourceOf(s, ByController(p)) == Some(OldQueue(s, p))
  {
  }

  lemma HeldByMover(s: State, h: Holder)
    requires Base(s) && InHandOf(s, h) && !h.ByProducer?
    ensures var r, m := OwnerOf(s, h), MsgOf(s, h);
            m in s.st.at.home && s.st.at.home[m] == InHand(h) && r in s.callers && IsSentAs(s.callers[r], m)
  {
    hide FullOk, WiresOk, QueuedOk, BuffersOk, PoolOk;
    var r, m := OwnerOf(s, h), MsgOf(s, h);
    assert s.st.at.home[m] == InHand(h);
    assert OwnerOk(s, m);
    assert CallerOk(s, r);
  }

  lemma StillAtStep(s: State, s': State, e: Effect, q: QId, r: Req, m: Msg)
    requires Base(s) && DutiesOk(s) && Has(s, s', e) && CallersGoOn(s, s') && SourcesKept(s, s') && MsgAt(s, q, r, m)
    requires e.Puts? ==> OldQueue(s, e.p) != NextQueue(s, e.p)
    ensures Accounted(s', q, r)
  {
    hide CallersOk, OwnersOk, Has, CallersGoOn, SourcesKept, SourceOf, DutyOk, StillAt, WasMoved, QueuedOk, BuffersOk, PoolOk, Linked, WiresOk, FullOk;
    SentOwner(s, r, m);
    EffectGuards(s, s', e);
    if e.Puts? && m == MsgOf(s, ByController(e.p)) {
      MoverSource(s, e.p);
      PutAccounts(s, s', e, q, r);
    } else if e.Settles? && m == MsgOf(s, e.h) {
      SettledNow(s, s', e, r);
    } else {
      MsgStays(s, s', e, q, r, m);
      ShowStillAt(s', q, r, m);
    }
  }

  lemma ShowStillAt(s: State, q: QId, r: Req, m: Msg)
    requires MsgAt(s, q, r, m)
    ensures StillAt(s, q, r)
  {
  }

  lemma SettledNow(s: State, s': State, e: Effect, r: Req)
    requires Has(s, s', e) && e.Settles? && CallersGoOn(s, s') && r == OwnerOf(s, e.h) && r in s.callers
    ensures IsSettled(s', r)
  {
  }

  lemma EffectGuards(s: State, s': State, e: Effect)
    requires Has(s, s', e)
    ensures e.Puts? ==> Transfers(s, e.p, UHolding) && InHandOf(s, ByController(e.p))
    ensures e.Settles? ==> InHandOf(s, e.h) && !e.h.ByProducer?
  {
  }

  /** A request that just went into a queue is in it. */
  lemma NewThrough(s: State, s': State, e: Effect, q: QId, r: Req)
    requires Base(s) && Has(s, s', e) && CallersGoOn(s, s')
    requires q in s'.hist && r in s'.hist[q].through && !(q in s.hist && r in s.hist[q].through)
    ensures StillAt(s', q, r)
  {
    hide Base, SourceOf, CallersGoOn;
    match e {
      case Sends(r0, _) => ShowStillAt(s', q, r, s.st.at.held[ByProducer(r0)]);
      case Puts(p) =>
        HeldByMover(s, ByController(p));
        SentStays(s, s', r, MsgOf(s, ByController(p)));
        ShowStillAt(s', q, r, MsgOf(s, ByController(p)));
      case _ =>
    }
  }

  lemma FlowKept(s: State, s': State, e: Effect)
    requires Base(s) && QueuesMatch(s) && DutiesOk(s) && FlowOk(s)
    requires Has(s, s', e) && CallersGoOn(s, s') && SourcesKept(s, s')
    requires e.Puts? ==> OldQueue(s, e.p) != NextQueue(s, e.p)
    ensures FlowOk(s')
  {
    hide Base, QueuesMatch, DutiesOk, Has, CallersGoOn, SourcesKept, MsgAt, IsSettled, WasMoved;
    forall q, r | q in s'.hist && r in s'.hist[q].through ensures Accounted(s', q, r) {
      if q in s.hist && r in s.hist[q].through {
        if m :| MsgAt(s, q, r, m) {
          StillAtStep(s, s', e, q, r, m);
        } else if IsSettled(s, r) {
          SettledStays(s, s', r);
        } else {
          MovedStays(s, s', e, q, r);
        }
      } else {
        NewThrough(s, s', e, q, r);
      }
    }
  }

  // ----- the order of what an update moves -----

  /** What updates moved from `q` to `q'`, in the order they moved it. */
  function MovedTo(s: State, q: QId, q': QId): seq<Msg> {
    if q in s.hist && q' in s.hist[q].moved then s.hist[q].moved[q'] else []
  }

  /** Moved messages left `q` and entered `q'` in the same order. */
  ghost predicate InOrder(s: State, q: QId, q': QId) {
    q in s.st.at.buffers && q' in s.st.at.buffers ==>
      && IsSubsequence(MovedTo(s, q, q'), s.st.at.buffers[q].received)
      && IsSubsequence(MovedTo(s, q, q'), s.st.at.buffers[q'].sent)
  }

  /** The message a transfer has in hand left the old queue after those it already moved. */
  ghost predicate HandInOrder(s: State, p: Provider) {
    Transfers(s, p, UHolding) && ByController(p) in s.st.at.held && OldQueue(s, p) in s.st.at.buffers ==>
      IsSubsequence(MovedTo(s, OldQueue(s, p), NextQueue(s, p)) + [s.st.at.held[ByController(p)]],
                    s.st.at.buffers[OldQueue(s, p)].received)
  }

  ghost predicate OrderOk(s: State) {
    && (forall q, q' :: q in s.hist && q' in s.hist[q].moved ==> q' in s.st.at.buffers)
    && (forall q, q' :: InOrder(s, q, q'))
    && (forall p :: HandInOrder(s, p))
  }

  lemma HoldingDesk(d: Desk, l: DeskStep)
    requires CanDesk(d, l)
    ensures var c := AfterDesk(d, l).ctl;
            c.Updating? && c.upc == UHolding ==>
              c == d.ctl || (l == Advance(UHolding) && d.ctl.Updating? && d.ctl.upc == UMoving && c.prev == d.ctl.prev && c.next == d.ctl.next)
  {
  }

  lemma HoldingLife(lf: Life, ll: LifeStep, p: Provider)
    requires CanLife(lf, ll)
    ensures var c := DeskOf(AfterLife(lf, ll), p).ctl;
            c.Updating? && c.upc == UHolding ==>
              && DeskOf(lf, p).ctl.Updating? && c.prev == DeskOf(lf, p).ctl.prev && c.next == DeskOf(lf, p).ctl.next
              && (DeskOf(lf, p).ctl.upc == UHolding || (ll == OnDesk(p, Advance(UHolding)) && DeskOf(lf, p).ctl.upc == UMoving))
  {
    hide CanDesk, AfterDesk;
    match ll
    case OnDesk(p', l) => HoldingDesk(DeskOf(lf, p'), l);
    case ShutFlag(p') => SignalEffect(lf.desks[p'], lf.desks[p'].route.value);
    case ShutClose => SignalEffect(lf.desks[lf.shutdown.cur.value.p], lf.shutdown.cur.value.n);
    case _ =>
  }

  /** A transfer has a message in hand because it had one, or because it took it with this step. */
  lemma HoldingStep(s: State, l: Label, p: Provider)
    requires Enabled(s, l) && Transfers(Next(s, l), p, UHolding)
    ensures p in s.lf.desks && s.lf.desks[p].ctl.Updating?
    ensures OldQueue(Next(s, l), p) == OldQueue(s, p) && NextQueue(Next(s, l), p) == NextQueue(s, p)
    ensures Transfers(s, p, UHolding) || EffectOf(s, l) == Takes(OldQueue(s, p), ByController(p))
  {
    hide CanLife, AfterLife, LifeOf, Next, Enabled, EffectOf;
    LifeOfStep(s, l);
    if LifeOf(s, l).Some? {
      HoldingLife(s.lf, LifeOf(s, l).value, p);
      if LifeOf(s, l).value == OnDesk(p, Advance(UHolding)) && Transfers(s, p, UMoving) { TakesInHand(s, l, p); }
    }
  }

  lemma TakesInHand(s: State, l: Label, p: Provider)
    requires Enabled(s, l) && LifeOf(s, l) == Some(OnDesk(p, Advance(UHolding))) && Transfers(s, p, UMoving)
    ensures EffectOf(s, l) == Takes(OldQueue(s, p), ByController(p))
  {
    hide CanLife;
  }

  /** Buffers only grow at their ends, and only by what the effect moves. */
  lemma BufferStep(s: State, s': State, e: Effect, q: QId)
    requires Has(s, s', e) && q in s'.st.at.buffers
    ensures q in s.st.at.buffers || (e == Adds(q) && s'.st.at.buffers[q].received == [] && s'.st.at.buffers[q].sent == [])
    ensures q in s.st.at.buffers ==>
              var b, b' := s.st.at.buffers[q], s'.st.at.buffers[q];
              && (b'.received == b.received || (e.Takes? && e.q == q && b.items != [] && b'.received == b.received + [b.items[0]]))
              && (b'.sent == b.sent || (e.Sends? && e.q == q && exists m :: b'.sent == b.sent + [m])
                  || (e.Puts? && NextQueue(s, e.p) == q && b'.sent == b.sent + [MsgOf(s, ByController(e.p))]))
  {
    match e case _ => {}
  }

  lemma MovedStep(s: State, s': State, e: Effect, q: QId, q': QId)
    requires Has(s, s', e) && (e.Puts? ==> OldQueue(s, e.p) != NextQueue(s, e.p))
    ensures if e.Puts? && OldQueue(s, e.p) == q && NextQueue(s, e.p) == q'
            then MovedTo(s', q, q') == MovedTo(s, q, q') + [MsgOf(s, ByController(e.p))]
            else if e == Adds(q) then MovedTo(s', q, q') == []
            else MovedTo(s', q, q') == MovedTo(s, q, q')
    ensures q in s'.hist && q' in s'.hist[q].moved ==>
              (q in s.hist && q' in s.hist[q].moved) || (e.Puts? && NextQueue(s, e.p) == q')
  {
    hide Undisturbed, Offer, Take, LetGo;
    match e case _ => {}
  }

  lemma InOrderKept(s: State, s': State, e: Effect, q: QId, q': QId)
    requires OrderOk(s) && QueuesMatch(s) && Has(s, s', e)
    requires e.Puts? ==> OldQueue(s, e.p) != NextQueue(s, e.p) && OldQueue(s, e.p) in s.st.at.buffers
    ensures InOrder(s', q, q')
  {
    hide Has, IsSubsequence, IsQueue, MovedTo, HandInOrder;
    if q in s'.st.at.buffers && q' in s'.st.at.buffers {
      MovedStep(s, s', e, q, q');
      BufferStep(s, s', e, q);
      BufferStep(s, s', e, q');
      EmptySubsequence(s'.st.at.buffers[q].received);
      EmptySubsequence(s'.st.at.buffers[q'].sent);
      if q in s.st.at.buffers && q' in s.st.at.buffers {
        assert InOrder(s, q, q');
        ReceivedInOrder(s, s', e, q, q');
        SentInOrder(s, s', e, q, q');
      } else {
        NothingMoved(s, q, q');
      }
    }
  }

  lemma NothingMoved(s: State, q: QId, q': QId)
    requires OrderOk(s) && QueuesMatch(s) && !(q in s.st.at.buffers && q' in s.st.at.buffers)
    ensures MovedTo(s, q, q') == []
  {
  }

  lemma ReceivedInOrder(s: State, s': State, e: Effect, q: QId, q': QId)
    requires OrderOk(s) && Has(s, s', e) && q in s.st.at.buffers && q' in s.st.at.buffers && q in s'.st.at.buffers
    requires e.Puts? ==> OldQueue(s, e.p) != NextQueue(s, e.p) && OldQueue(s, e.p) in s.st.at.buffers
    ensures IsSubsequence(MovedTo(s', q, q'), s'.st.at.buffers[q].received)
  {
    hide Has, IsSubsequence, MovedTo;
    assert InOrder(s, q, q');
    MovedStep(s, s', e, q, q');
    BufferStep(s, s', e, q);
    if e.Adds? { AddsFresh(s, s', e); }
    EffectGuards(s, s', e);
    if e.Puts? && OldQueue(s, e.p) == q && NextQueue(s, e.p) == q' {
      assert HandInOrder(s, e.p);
    } else if e.Takes? && e.q == q {
      var b := s.st.at.buffers[q];
      if b.items != [] { SubsequenceGrows(MovedTo(s, q, q'), b.received, b.items[0]); }
    }
  }

  lemma SentInOrder(s: State, s': State, e: Effect, q: QId, q': QId)
    requires OrderOk(s) && Has(s, s', e) && q in s.st.at.buffers && q' in s.st.at.buffers && q' in s'.st.at.buffers
    requires e.Puts? ==> OldQueue(s, e.p) != NextQueue(s, e.p)
    ensures IsSubsequence(MovedTo(s', q, q'), s'.st.at.buffers[q'].sent)
  {
    hide Has, IsSubsequence, MovedTo, HandInOrder;
    assert InOrder(s, q, q');
    MovedStep(s, s', e, q, q');
    BufferStep(s, s', e, q');
    if e.Adds? { AddsFresh(s, s', e); }
    var b, b' := s.st.at.buffers[q'], s'.st.at.buffers[q'];
    if m :| b'.sent == b.sent + [m] {
      SubsequenceGrows(MovedTo(s, q, q'), b.sent, m);
      assert b'.sent[|b.sent|] == m;
    }
    if e.Puts? { PutIsSent(s, s', e); }
  }

  lemma PutIsSent(s: State, s': State, e: Effect)
    requires Has(s, s', e) && e.Puts?
    ensures NextQueue(s, e.p) in s.st.at.buffers && NextQueue(s, e.p) in s'.st.at.buffers
    ensures s'.st.at.buffers[NextQueue(s, e.p)].sent == s.st.at.buffers[NextQueue(s, e.p)].sent + [MsgOf(s, ByController(e.p))]
  {
  }

  lemma AddsFresh(s: State, s': State, e: Effect)
    requires Has(s, s', e) && e.Adds?
    ensures e.q !in s.st.at.buffers
  {
  }

  lemma HeldSame(s: State, s': State, e: Effect, h: Holder)
    requires Has(s, s', e) && h in s.st.at.held && h in s'.st.at.held && !h.ByProducer?
    ensures s'.st.at.held[h] == s.st.at.held[h] && !(e.Puts? && h == ByController(e.p))
  {
    match e case _ => {}
  }

  lemma HandStays(s: State, s': State, e: Effect, p: Provider)
    requires HandInOrder(s, p) && Has(s, s', e) && DutyOk(s, ByController(p))
    requires e.Puts? ==> OldQueue(s, e.p) != NextQueue(s, e.p)
    requires Transfers(s, p, UHolding) && Transfers(s', p, UHolding) && OldQueue(s, p) in s.st.at.buffers
    requires OldQueue(s', p) == OldQueue(s, p) && NextQueue(s', p) == NextQueue(s, p)
    ensures HandInOrder(s', p)
  {
    hide Has, IsSubsequence, MovedTo;
    var h, q, q' := ByController(p), OldQueue(s, p), NextQueue(s, p);
    if h in s'.st.at.held && q in s'.st.at.buffers {
      HeldSame(s, s', e, h);
      MovedStep(s, s', e, q, q');
      BufferStep(s, s', e, q);
      if e.Adds? { AddsFresh(s, s', e); }
      var b := s.st.at.buffers[q];
      if e.Takes? && b.items != [] {
        SubsequenceGrows(MovedTo(s, q, q') + [s.st.at.held[h]], b.received, b.items[0]);
      }
    }
  }

  lemma HandTaken(s: State, s': State, e: Effect, p: Provider)
    requires p in s.lf.desks && s.lf.desks[p].ctl.Updating? && Transfers(s', p, UHolding)
    requires OldQueue(s', p) == OldQueue(s, p) && NextQueue(s', p) == NextQueue(s, p)
    requires InOrder(s, OldQueue(s, p), NextQueue(s, p)) && Has(s, s', e) && e == Takes(OldQueue(s, p), ByController(p))
    requires OldQueue(s, p) in s.st.at.buffers && NextQueue(s, p) in s.st.at.buffers
    ensures HandInOrder(s', p)
  {
    hide IsSubsequence, MovedTo, SourceOf;
    var q, q' := OldQueue(s, p), NextQueue(s, p);
    MovedStep(s, s', e, q, q');
    SubsequenceGrows(MovedTo(s, q, q'), s.st.at.buffers[q].received, s.st.at.buffers[q].items[0]);
  }

  lemma HandKept(s: State, l: Label, p: Provider)
    requires Enabled(s, l) && OrderOk(s) && QueuesMatch(s) && DutiesOk(s) && DesksOk(s.lf.desks)
    requires Has(s, Next(s, l), EffectOf(s, l))
    requires EffectOf(s, l).Puts? ==> OldQueue(s, EffectOf(s, l).p) != NextQueue(s, EffectOf(s, l).p)
    ensures HandInOrder(Next(s, l), p)
  {
    hide Enabled, Next, EffectOf, Has, IsSubsequence, MovedTo, QueuesMatch, DesksOk, InOrder, HandInOrder, DutyOk;
    var s', e := Next(s, l), EffectOf(s, l);
    if Transfers(s', p, UHolding) {
      HoldingStep(s, l, p);
      UpdateQueuesExist(s, p);
      assert HandInOrder(s, p) && InOrder(s, OldQueue(s, p), NextQueue(s, p)) && DutyOk(s, ByController(p));
      if Transfers(s, p, UHolding) { HandStays(s, s', e, p); } else { HandTaken(s, s', e, p); }
    } else {
      NoHand(s', p);
    }
  }

  lemma NoHand(s: State, p: Provider)
    requires !Transfers(s, p, UHolding)
    ensures HandInOrder(s, p)
  {
  }

  lemma OrderKept(s: State, l: Label)
    requires Enabled(s, l) && OrderOk(s) && QueuesMatch(s) && DutiesOk(s) && DesksOk(s.lf.desks)
    requires Has(s, Next(s, l), EffectOf(s, l))
    ensures OrderOk(Next(s, l))
  {
    hide Enabled, Next, EffectOf, Has, QueuesMatch, DesksOk, DutiesOk, InOrder, HandInOrder;
    var s', e := Next(s, l), EffectOf(s, l);
    EffectGuards(s, s', e);
    if e.Puts? { UpdateQueuesExist(s, e.p); }
    forall q, q' ensures InOrder(s', q, q') { InOrderKept(s, s', e, q, q'); }
    forall p ensures HandInOrder(s', p) { HandKept(s, l, p); }
    forall q, q' | q in s'.hist && q' in s'.hist[q].moved ensures q' in s'.st.at.buffers {
      MovedStep(s, s', e, q, q');
      BuffersStay(s, s', e, q');
    }
  }

  lemma BuffersStay(s: State, s': State, e: Effect, q: QId)
    requires Has(s, s', e) && q in s.st.at.buffers
    ensures q in s'.st.at.buffers
  {
    match e case _ => {}
  }
}
