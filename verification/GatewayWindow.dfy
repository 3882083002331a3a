/**
 The documented window of a signalled queue: a caller that passed its closing check before the
 signal may still win the send after the last drain loop has found the queue empty. What such a
 late message can be, exactly when there is none, and what becomes of it.
 */
module GatewayWindow {
  import opened Options
  import opened MessageStore
  import opened QueueLife
  import opened Gateway
  import opened GatewayDuties
  import opened GatewayCallers
  import opened GatewayFlow
  import opened GatewayTheorems

  // ----- late messages come from callers that checked before the signal -----

  lemma ArmedAtStep(s: State, s': State, e: Effect, q: QId, r: Req)
    requires Has(s, s', e) && q in s'.hist && r in s'.hist[q].armedAt
    ensures (q in s.hist && r in s.hist[q].armedAt) || (e == Signals(q) && !Closing(s, q) && r in Armed(s, q))
  {
    hide Undisturbed, Offer, Take, LetGo, Closing, Armed;
    match e case _ => {}
  }

  /** The `k`-th step of the run signalled `q` first, and `r` was already past its closing check on `q`. */
  ghost predicate WasArmed(ls: seq<Label>, k: nat, q: QId, r: Req)
    requires IsHistory(ls)
  {
    && k < |ls| && IsHistory(ls[..k])
    && EffectOf(StateAfter(ls[..k]), ls[k]) == Signals(q)
    && !Closing(StateAfter(ls[..k]), q) && r in Armed(StateAfter(ls[..k]), q)
  }

  lemma RunSplit(ls: seq<Label>)
    requires IsHistory(ls) && ls != []
    ensures IsHistory(ls[..|ls| - 1]) && Enabled(StateAfter(ls[..|ls| - 1]), ls[|ls| - 1])
    ensures StateAfter(ls) == Next(StateAfter(ls[..|ls| - 1]), ls[|ls| - 1])
  {
    hide Enabled, Next;
  }

  lemma LastStepHas(ls: seq<Label>)
    requires IsHistory(ls) && ls != []
    ensures IsHistory(ls[..|ls| - 1])
    ensures Has(StateAfter(ls[..|ls| - 1]), StateAfter(ls), EffectOf(StateAfter(ls[..|ls| - 1]), ls[|ls| - 1]))
  {
    hide Enabled, Next, EffectOf, Has, IsHistory, StateAfter, Base, DutiesOk, LifeInv, OrderOk, FlowOk, LateOk;
    RunSplit(ls);
    AlwaysInv(ls[..|ls| - 1]);
    StepHas(StateAfter(ls[..|ls| - 1]), ls[|ls| - 1]);
  }

  lemma {:induction false} ArmedAtMeans(ls: seq<Label>, q: QId, r: Req)
    requires IsHistory(ls) && q in StateAfter(ls).hist && r in StateAfter(ls).hist[q].armedAt
    ensures exists k: nat :: WasArmed(ls, k, q, r)
    decreases |ls|
  {
    hide EffectOf, Has, Closing, Armed, IsHistory, StateAfter;
    if ls == [] {
      InitialHasNoHistory();
    } else {
      var n := |ls| - 1;
      LastStepHas(ls);
      var s := StateAfter(ls[..n]);
      ArmedAtStep(s, StateAfter(ls), EffectOf(s, ls[n]), q, r);
      if q in s.hist && r in s.hist[q].armedAt {
        ArmedAtMeans(ls[..n], q, r);
        var k: nat :| WasArmed(ls[..n], k, q, r);
        assert ls[..n][..k] == ls[..k];
        assert WasArmed(ls, k, q, r);
      } else {
        assert WasArmed(ls, n, q, r);
      }
    }
  }

  lemma InitialHasNoHistory()
    ensures IsHistory([]) && StateAfter([]).hist == map[]
  {
  }

  /**
   Once a queue was signalled, its workers have exited and a drain loop then found it empty, a
   message found in it belongs to a caller whose closing check preceded the signal.
   */
  lemma LateMessagesCheckedEarly(ls: seq<Label>, q: QId, m: Msg)
    requires IsHistory(ls) && q in StateAfter(ls).hist && StateAfter(ls).hist[q].quiet
    requires q in StateAfter(ls).st.at.buffers && m in StateAfter(ls).st.at.buffers[q].items
    ensures m in StateAfter(ls).st.rp.owner
    ensures exists k: nat :: WasArmed(ls, k, q, StateAfter(ls).st.rp.owner[m])
  {
    hide Base, LifeInv, DutiesOk, OrderOk, FlowOk, IsHistory, StateAfter;
    AlwaysInv(ls);
    ArmedAtMeans(ls, q, StateAfter(ls).st.rp.owner[m]);
  }

  // ----- no caller left in the window: sealed for good -----

  /** Found empty after its workers exited, still empty, and no caller is left that can send into it. */
  ghost predicate Sealed(s: State, q: QId) {
    q in s.hist && s.hist[q].quiet && IsDrained(s.st.at, q) && Armed(s, q) == {}
  }

  lemma QuietStays(s: State, s': State, e: Effect, q: QId)
    requires Has(s, s', e) && QueuesMatch(s) && q in s.hist && s.hist[q].quiet
    ensures q in s'.hist && s'.hist[q].quiet
  {
    hide Undisturbed, Offer, Take, LetGo, IsQueue;
    match e case _ => {}
  }

  lemma ArmedShrinks(s: State, s': State, q: QId)
    requires OffersChecked(s, s') && Closing(s, q)
    ensures Armed(s', q) <= Armed(s, q)
  {
  }

  lemma SenderIsArmed(s: State, s': State, e: Effect, q: QId)
    requires Has(s, s', e) && e.Sends? && e.q == q
    ensures e.r in Armed(s, q)
  {
  }

  lemma SealedStep(s: State, l: Label, q: QId)
    requires Inv(s) && Enabled(s, l) && Sealed(s, q)
    ensures Sealed(Next(s, l), q)
  {
    hide Base, DesksOk, CountOk, OpenOk, QuietingOk, DutiesOk, QueuesMatch, CapacityOk, ArmedOk, LateOk, FlowOk, OrderOk;
    hide Enabled, Next, EffectOf, Has, LifeGoesOn, Armed, Closing, Unstaffed, OffersChecked, CallersGoOn, OwnersKept, AtPlace;
    var s', e := Next(s, l), EffectOf(s, l);
    StepIsStep(s, l);
    QuietStays(s, s', e, q);
    UnstaffedIsClosing(s, q);
    ArmedShrinks(s, s', q);
    BuffersStay(s, s', e, q);
    if s'.st.at.buffers[q].items != [] {
      var m := s'.st.at.buffers[q].items[0];
      NewItem(s, s', e, q, m);
      NoLatePut(s, s', e, q);
      SenderIsArmed(s, s', e, q);
    }
  }

  /** If no such caller is pending at the sweep, the queue stays empty in every continuation. */
  lemma {:induction false} SealedForever(s: State, ls: seq<Label>, q: QId)
    requires Inv(s) && Sealed(s, q) && CanRun(s, ls)
    ensures Sealed(AfterRun(s, ls), q)
    decreases |ls|
  {
    hide Inv, Enabled, Next, Sealed;
    if ls != [] {
      SealedForever(s, ls[..|ls| - 1], q);
      RunKeepsInv(s, ls[..|ls| - 1]);
      SealedStep(AfterRun(s, ls[..|ls| - 1]), ls[|ls| - 1], q);
    }
  }

  lemma UnstaffedCrew(s: State, q: QId, k: nat)
    requires DesksOk(s.lf.desks) && Unstaffed(s.lf, q) && k in QueueOf(s.lf, q).crew
    ensures QueueOf(s.lf, q).crew[k] == Gone
  {
    PlacedAt(s.lf.desks[q.p], q.n);
    NobodyRuns(QueueOf(s.lf, q), k);
  }

  lemma UnstaffedIsNotMoved(s: State, q: QId)
    requires DesksOk(s.lf.desks) && OpenOk(s.lf) && Unstaffed(s.lf, q)
    ensures !(Transfers(s, q.p, UHolding) && OldQueue(s, q.p) == q)
  {
    PlacedAt(s.lf.desks[q.p], q.n);
    assert OpenDesk(s.lf.desks[q.p], Started(s.lf));
  }

  /** Nobody but a drain loop carries a message of a queue that has no workers. */
  lemma OnlyDrainsCarry(s: State, q: QId, h: Holder)
    requires DesksOk(s.lf.desks) && OpenOk(s.lf) && Unstaffed(s.lf, q) && SourceOf(s, h) == Some(q)
    ensures h in s.draining && s.draining[h] == q
  {
    hide DesksOk, OpenOk;
    UnstaffedIsNotMoved(s, q);
    if h.ByWorker? && IsQueue(s.lf, h.w.q) && h.w.q == q && h.w.k in QueueOf(s.lf, q).crew {
      UnstaffedCrew(s, q, h.w.k);
    }
  }

  /**
   And every request that ever went through it was settled (answered, or an error reply attempted),
   moved to the provider's next queue, or is in the hand of another drain loop of this queue.
   */
  lemma SealedAccount(s: State, q: QId, r: Req)
    requires Inv(s) && Sealed(s, q) && r in s.hist[q].through
    ensures || IsSettled(s, r) || WasMoved(s, q, r)
            || exists h, m :: MsgAt(s, q, r, m) && AtPlace(s.st.at, m, InHand(h)) && h in s.draining && s.draining[h] == q
  {
    hide CallersOk, OwnersOk, DesksOk, OpenOk, CountOk, QuietingOk, DutiesOk, OrderOk, LateOk, IsSettled, WasMoved, Unstaffed, SourceOf, WiresOk, FullOk, Linked, BuffersOk, PoolOk, Armed, ArmedOk;
    assert Accounted(s, q, r);
    if m :| MsgAt(s, q, r, m) {
      assert s.st.at.home[m].InHand?;
      var h := s.st.at.home[m].h;
      OnlyDrainsCarry(s, q, h);
      assert AtPlace(s.st.at, m, InHand(h));
    }
  }

  /** A caller in the window can send as soon as there is room. */
  lemma ArmedCanSend(s: State, q: QId, r: Req)
    requires Base(s) && QueuesMatch(s) && CapacityOk(s) && r in Armed(s, q) && IsDrained(s.st.at, q)
    ensures Enabled(s, Call(r, Send)) && !IsDrained(Next(s, Call(r, Send)).st.at, q)
  {
    hide QueuedOk, BuffersOk, FullOk, WiresOk, PoolOk, OwnersOk, IsQueue;
    assert CallerOk(s, r);
  }

  /**
   Exactly when the window is harmless: a queue that a drain loop found empty after its workers
   exited stays empty in every continuation if and only if no caller is past its closing check.
   */
  lemma StaysEmptyIff(s: State, q: QId)
    requires Inv(s) && q in s.hist && s.hist[q].quiet && IsDrained(s.st.at, q)
    ensures (forall ls :: CanRun(s, ls) ==> IsDrained(AfterRun(s, ls).st.at, q)) <==> Armed(s, q) == {}
  {
    hide Base, LifeInv, DutiesOk, OrderOk, FlowOk, LateOk, QueuesMatch, CapacityOk, ArmedOk, QuietOk, Enabled, Next, Armed, IsDrained;
    if Armed(s, q) == {} {
      forall ls | CanRun(s, ls) ensures IsDrained(AfterRun(s, ls).st.at, q) {
        SealedForever(s, ls, q);
      }
    } else {
      var r :| r in Armed(s, q);
      ArmedCanSend(s, q, r);
      OneStepRun(s, Call(r, Send));
    }
  }

  lemma OneStepRun(s: State, l: Label)
    requires Enabled(s, l)
    ensures CanRun(s, [l]) && AfterRun(s, [l]) == Next(s, l)
  {
    hide Enabled, Next;
    assert [l][..0] == [];
    assert CanRun(s, []);
  }

  // ----- a message left in the window is stranded -----

  /** No worker, controller or cleanup will ever look at the queue again. */
  predicate Forgotten(lf: Life, q: QId) {
    && Unstaffed(lf, q)
    && Overlooked(lf.desks[q.p], q.n)
  }

  predicate Overlooked(d: Desk, q: nat) {
    && q in d.queues && d.queues[q].phase in {Active, Unretired, Finished}
    && d.route != Some(q) && !(d.ctl.Updating? && d.ctl.prev == q) && !(d.ctl.Removing? && d.ctl.gone == q)
  }

  ghost predicate Stranded(s: State, q: QId) {
    Forgotten(s.lf, q) && forall h :: h in s.draining ==> s.draining[h] != q
  }

  lemma OverlookedDesk(d: Desk, l: DeskStep, q: nat)
    requires CanDesk(d, l) && Overlooked(d, q)
    ensures Overlooked(AfterDesk(d, l), q)
  {
  }

  lemma ForgottenStable(lf: Life, ll: LifeStep, q: QId)
    requires CanLife(lf, ll) && Forgotten(lf, q)
    ensures Forgotten(AfterLife(lf, ll), q)
  {
    hide Unstaffed, CanDesk, AfterDesk;
    UnstaffedStable(lf, ll, q);
    UnstaffedHere(lf, q);
    match ll {
      case OnDesk(p, l) => if p == q.p { OverlookedDesk(lf.desks[p], l, q.n); }
      case ShutFlag(p) => SignalEffect(lf.desks[p], lf.desks[p].route.value);
      case ShutClose => SignalEffect(lf.desks[lf.shutdown.cur.value.p], lf.shutdown.cur.value.n);
      case _ =>
    }
  }

  lemma UnstaffedHere(lf: Life, q: QId)
    requires Unstaffed(lf, q)
    ensures IsQueue(lf, q)
  {
  }

  lemma WorkDrains(s: State, w: WId, l: WorkStep, q: QId, h: Holder)
    requires CanWork(s, w, l) && Unstaffed(s.lf, q) && DesksOk(s.lf.desks)
    requires h in AfterWork(s, w, l).draining && AfterWork(s, w, l).draining[h] == q
    ensures h in s.draining && s.draining[h] == q
  {
    hide CanLife, AfterLife, WorkLife, DesksOk;
    if w.q == q && IsQueue(s.lf, q) && w.k in QueueOf(s.lf, q).crew { UnstaffedCrew(s, q, w.k); }
  }

  lemma DrainDrains(s: State, x: Holder, l: DrainStep, h: Holder)
    requires CanDrain(s, x, l) && h in AfterDrain(s, x, l).draining
    ensures h in s.draining && s.draining[h] == AfterDrain(s, x, l).draining[h]
  {
  }

  lemma MoveDrains(s: State, p: Provider, l: MoveStep, q: QId, h: Holder)
    requires CanMove(s, p, l) && Forgotten(s.lf, q)
    requires h in AfterMove(s, p, l).draining && AfterMove(s, p, l).draining[h] == q
    ensures h in s.draining && s.draining[h] == q
  {
    hide CanLife, AfterLife, MoveLife;
  }

  lemma ControlDrains(s: State, c: ControlStep, q: QId, h: Holder)
    requires CanControl(s, c) && Forgotten(s.lf, q)
    requires h in AfterControl(s, c).draining && AfterControl(s, c).draining[h] == q
    ensures h in s.draining && s.draining[h] == q
  {
    hide AfterLife;
  }

  /** No drain loop is started on a forgotten queue. */
  lemma NoNewDrain(s: State, l: Label, q: QId, h: Holder)
    requires Enabled(s, l) && Forgotten(s.lf, q) && DesksOk(s.lf.desks)
    requires h in Next(s, l).draining && Next(s, l).draining[h] == q
    ensures h in s.draining && s.draining[h] == q
  {
    hide DesksOk, AfterCall, AfterWork, AfterDrain, AfterMove, AfterControl, CanCall, CanWork, CanDrain, CanMove, CanControl;
    match l
    case Call(r, c) => CallFrame(s, r, c);
    case Work(w, c) => WorkDrains(s, w, c, q, h);
    case Drain(x, c) => DrainDrains(s, x, c, h);
    case Move(p, c) => MoveDrains(s, p, c, q, h);
    case Control(c) => ControlDrains(s, c, q, h);
  }

  /** Nobody takes a message from a stranded queue. */
  lemma NobodyTakes(s: State, l: Label, q: QId)
    requires Enabled(s, l) && Stranded(s, q) && DesksOk(s.lf.desks)
    ensures !(EffectOf(s, l).Takes? && EffectOf(s, l).q == q)
  {
    hide DesksOk, CanLife;
    if l.Work? && l.w.q == q && IsQueue(s.lf, q) && l.w.k in QueueOf(s.lf, q).crew { UnstaffedCrew(s, q, l.w.k); }
  }

  lemma ItemsStay(s: State, s': State, e: Effect, q: QId, m: Msg)
    requires Has(s, s', e) && !(e.Takes? && e.q == q) && q in s.st.at.buffers && m in s.st.at.buffers[q].items
    ensures q in s'.st.at.buffers && m in s'.st.at.buffers[q].items
  {
    match e case _ => {}
  }

  lemma StrandedStays(s: State, l: Label, q: QId)
    requires Inv(s) && Enabled(s, l) && Stranded(s, q)
    ensures Stranded(Next(s, l), q)
  {
    hide Base, DesksOk, CountOk, OpenOk, QuietingOk, DutiesOk, QueuesMatch, CapacityOk, ArmedOk, QuietOk, LateOk, FlowOk, OrderOk;
    hide Enabled, Next, LifeOf, CanLife, AfterLife, Forgotten;
    var s' := Next(s, l);
    LifeOfStep(s, l);
    if LifeOf(s, l).Some? { ForgottenStable(s.lf, LifeOf(s, l).value, q); }
    forall h | h in s'.draining ensures s'.draining[h] != q {
      if s'.draining[h] == q { NoNewDrain(s, l, q, h); }
    }
  }

  lemma {:induction false} StrandedRun(s: State, ls: seq<Label>, q: QId)
    requires Inv(s) && Stranded(s, q) && CanRun(s, ls)
    ensures Stranded(AfterRun(s, ls), q)
    decreases |ls|
  {
    hide Inv, Enabled, Next, Stranded;
    if ls != [] {
      StrandedRun(s, ls[..|ls| - 1], q);
      RunKeepsInv(s, ls[..|ls| - 1]);
      StrandedStays(AfterRun(s, ls[..|ls| - 1]), ls[|ls| - 1], q);
    }
  }

  /** Message `m` of request `r` is in `q`, and `r` has been sent nothing. */
  ghost predicate IsWaitingIn(s: State, q: QId, m: Msg, r: Req) {
    AtPlace(s.st.at, m, InQueue(q)) && m in s.st.rp.owner && s.st.rp.owner[m] == r && r in s.log && s.log[r] == []
  }

  lemma StrandedStep(s: State, l: Label, q: QId, m: Msg, r: Req)
    requires Inv(s) && Enabled(s, l) && Stranded(s, q) && IsWaitingIn(s, q, m, r) && Inv(Next(s, l))
    ensures IsWaitingIn(Next(s, l), q, m, r)
  {
    hide LifeInv, DutiesOk, QueuesMatch, CapacityOk, ArmedOk, QuietOk, LateOk, FlowOk, OrderOk, CallersOk, OwnersOk;
    hide WiresOk, FullOk, Linked, HandsOk, BuffersOk, PoolOk, Enabled, Next, EffectOf, Has, Stranded, CallersGoOn, OffersChecked;
    StepHas(s, l);
    NobodyTakesHere(s, l, q);
    ItemsStay(s, Next(s, l), EffectOf(s, l), q, m);
    QueuedIsUnsettled(Next(s, l), q, m);
  }

  lemma NobodyTakesHere(s: State, l: Label, q: QId)
    requires LifeInv(s.lf) && Enabled(s, l) && Stranded(s, q)
    ensures !(EffectOf(s, l).Takes? && EffectOf(s, l).q == q)
  {
    hide DesksOk, CountOk, OpenOk, QuietingOk, Enabled, EffectOf, Stranded;
    NobodyTakes(s, l, q);
  }

  /** A message in a stranded queue stays there in every continuation, and its caller never gets a reply. */
  lemma {:induction false} StrandedForever(s: State, ls: seq<Label>, q: QId, m: Msg, r: Req)
    requires Inv(s) && Stranded(s, q) && IsWaitingIn(s, q, m, r) && CanRun(s, ls)
    ensures IsWaitingIn(AfterRun(s, ls), q, m, r)
    decreases |ls|
  {
    hide Inv, Enabled, Next, Stranded, IsWaitingIn;
    if ls != [] {
      var n := |ls| - 1;
      StrandedForever(s, ls[..n], q, m, r);
      RunKeepsInv(s, ls[..n]);
      RunKeepsInv(s, ls);
      StrandedRun(s, ls[..n], q);
      StrandedStep(AfterRun(s, ls[..n]), ls[n], q, m, r);
    }
  }

  lemma QueuedIsUnsettled(s: State, q: QId, m: Msg)
    requires Inv(s) && AtPlace(s.st.at, m, InQueue(q))
    ensures m in s.st.rp.owner && s.st.rp.owner[m] in s.log && s.log[s.st.rp.owner[m]] == []
  {
    hide LifeInv, DutiesOk, QueuesMatch, CapacityOk, ArmedOk, QuietOk, LateOk, FlowOk, OrderOk, FullOk, BuffersOk, HandsOk, PoolOk;
    assert s.st.at.home[m] == InQueue(q);
    assert OwnerOk(s, m);
    assert CallerOk(s, s.st.rp.owner[m]);
  }

  // ----- the same, of every reachable state -----

  /** A drain loop found `q` empty after its workers had exited, and it is empty now. */
  ghost predicate Swept(s: State, q: QId) { q in s.hist && s.hist[q].quiet && IsDrained(s.st.at, q) }

  lemma SweptQueueStaysEmptyIff(ls: seq<Label>, q: QId)
    requires IsHistory(ls) && Swept(StateAfter(ls), q)
    ensures (forall more :: CanRun(StateAfter(ls), more) ==> IsDrained(AfterRun(StateAfter(ls), more).st.at, q))
            <==> Armed(StateAfter(ls), q) == {}
  {
    hide Inv, IsHistory, StateAfter, CanRun, AfterRun, Armed, IsDrained;
    AlwaysInv(ls);
    StaysEmptyIff(StateAfter(ls), q);
  }

  lemma SweptQueueIsAccountedFor(ls: seq<Label>, q: QId, r: Req)
    requires IsHistory(ls) && Swept(StateAfter(ls), q) && Armed(StateAfter(ls), q) == {} && r in StateAfter(ls).hist[q].through
    ensures var s := StateAfter(ls);
            || IsSettled(s, r) || WasMoved(s, q, r)
            || exists h, m :: MsgAt(s, q, r, m) && AtPlace(s.st.at, m, InHand(h)) && h in s.draining && s.draining[h] == q
  {
    hide Inv, IsHistory, StateAfter, Armed, IsDrained, IsSettled, WasMoved, MsgAt, AtPlace;
    AlwaysInv(ls);
    SealedAccount(StateAfter(ls), q, r);
  }

  lemma StrandedMessageIsLost(ls: seq<Label>, more: seq<Label>, q: QId, m: Msg, r: Req)
    requires IsHistory(ls) && Stranded(StateAfter(ls), q) && IsWaitingIn(StateAfter(ls), q, m, r)
    requires CanRun(StateAfter(ls), more)
    ensures IsWaitingIn(AfterRun(StateAfter(ls), more), q, m, r)
  {
    hide Inv, IsHistory, StateAfter, CanRun, AfterRun, Stranded, IsWaitingIn;
    AlwaysInv(ls);
    StrandedForever(StateAfter(ls), more, q, m, r);
  }

  // ----- exactly when every request of a queue left behind is answered -----

  /** Every request that went through `q` was settled, or moved to a queue that accounts for it. */
  ghost predicate AllServed(s: State, q: QId) {
    q in s.hist && forall r :: r in s.hist[q].through ==> IsSettled(s, r) || WasMoved(s, q, r)
  }

  ghost predicate AlwaysServed(s: State, q: QId) {
    forall more :: CanRun(s, more) ==> AllServed(AfterRun(s, more), q)
  }

  /** Message `m` of `r` stays in `q`, and `r` is sent nothing, in every continuation. */
  ghost predicate WaitsForever(s: State, q: QId, m: Msg, r: Req) {
    forall more :: CanRun(s, more) ==> IsWaitingIn(AfterRun(s, more), q, m, r)
  }

  /** `r` went into `q`, and in no continuation is it sent anything or taken out. */
  ghost predicate LostIn(s: State, q: QId, r: Req) {
    && q in s.hist && r in s.hist[q].through && !IsSettled(s, r) && !WasMoved(s, q, r)
    && exists m :: WaitsForever(s, q, m, r)
  }

  lemma SealedIsServed(s: State, q: QId)
    requires Inv(s) && Sealed(s, q) && Stranded(s, q)
    ensures AllServed(s, q)
  {
    hide Inv, Armed, IsDrained, Forgotten, IsSettled, WasMoved, MsgAt, AtPlace;
    forall r | r in s.hist[q].through ensures IsSettled(s, r) || WasMoved(s, q, r) {
      SealedAccount(s, q, r);
    }
  }

  /** The send of a caller that is past its closing check puts its request into the queue, unanswered. */
  lemma LateSendWaits(s: State, q: QId, r: Req)
    requires Inv(s) && PastOk(s) && Stranded(s, q) && r in Armed(s, q) && IsDrained(s.st.at, q) && q in s.hist
    requires Enabled(s, Call(r, Send)) && Inv(Next(s, Call(r, Send)))
    ensures var t := Next(s, Call(r, Send));
            && q in t.hist && r in t.hist[q].through && !IsSettled(t, r) && !WasMoved(t, q, r)
            && ByProducer(r) in s.st.at.held && IsWaitingIn(t, q, s.st.at.held[ByProducer(r)], r)
  {
    hide LifeInv, DutiesOk, QueuesMatch, CapacityOk, ArmedOk, QuietOk, LateOk, FlowOk, OrderOk, OwnersOk, Stranded;
    hide WiresOk, FullOk, Linked, HandsOk, BuffersOk, PoolOk, QueuedOk;
    assert CallerOk(s, r);
  }

  /**
   Exactly when every request of a queue left behind is answered. Of a queue swept empty that no
   worker, controller or drain loop will look at again: in every continuation each request that went
   through it was settled or moved on if and only if no caller is past its closing check. Otherwise some
   continuation puts a request into it that is lost.
   */
  lemma ServedIff(ls: seq<Label>, q: QId)
    requires IsHistory(ls) && Swept(StateAfter(ls), q) && Stranded(StateAfter(ls), q)
    ensures AlwaysServed(StateAfter(ls), q) <==> Armed(StateAfter(ls), q) == {}
    ensures Armed(StateAfter(ls), q) != {} ==>
              exists more, r :: CanRun(StateAfter(ls), more) && LostIn(AfterRun(StateAfter(ls), more), q, r)
  {
    hide Inv, PastOk, IsHistory, StateAfter, CanRun, AfterRun, Armed, IsDrained, Stranded, AllServed, LostIn;
    var s := StateAfter(ls);
    AlwaysInv(ls);
    AlwaysPast(ls);
    if Armed(s, q) == {} {
      forall more | CanRun(s, more) ensures AllServed(AfterRun(s, more), q) {
        RunKeepsInv(s, more);
        SealedForever(s, more, q);
        StrandedRun(s, more, q);
        SealedIsServed(AfterRun(s, more), q);
      }
    } else {
      var r :| r in Armed(s, q);
      var more := LateSendIsLost(s, q, r);
      LostIsNotServed(AfterRun(s, more), q, r);
    }
  }

  lemma LateSendIsLost(s: State, q: QId, r: Req) returns (more: seq<Label>)
    requires Inv(s) && PastOk(s) && Swept(s, q) && Stranded(s, q) && r in Armed(s, q)
    ensures CanRun(s, more) && LostIn(AfterRun(s, more), q, r)
  {
    hide Base, LifeInv, DutiesOk, OrderOk, FlowOk, LateOk, QueuesMatch, CapacityOk, ArmedOk, QuietOk, PastOk, Enabled, Next, Armed, IsDrained;
    hide Stranded, IsSettled, WasMoved, IsWaitingIn, CanRun, AfterRun;
    more := [Call(r, Send)];
    ArmedCanSend(s, q, r);
    OneStepRun(s, Call(r, Send));
    RunKeepsInv(s, more);
    LateSendWaits(s, q, r);
    StrandedRun(s, more, q);
    var t, m := AfterRun(s, more), s.st.at.held[ByProducer(r)];
    forall further | CanRun(t, further) ensures IsWaitingIn(AfterRun(t, further), q, m, r) {
      StrandedForever(t, further, q, m, r);
    }
    assert WaitsForever(t, q, m, r);
  }

  lemma LostIsNotServed(s: State, q: QId, r: Req)
    requires LostIn(s, q, r)
    ensures !AllServed(s, q)
  {
    hide IsSettled, WasMoved, WaitsForever;
  }

  // ----- the auxiliary fields decide nothing -----

  /**
   Where a guard asks that a message in hand has an owner and a log, or that a queue has a history,
   it asks for nothing: in every reachable state they do.
   */
  lemma GuardsAskNothingExtra(ls: seq<Label>)
    requires IsHistory(ls)
    ensures var s := StateAfter(ls);
            && (forall h :: h in s.st.at.held ==> LogsFor(s, h))
            && (forall r :: r in s.callers && Holds(s.callers[r]) ==> InHandOf(s, ByProducer(r)) && s.callers[r].q in s.hist)
            && (forall h :: h in s.draining ==> s.draining[h] in s.hist)
            && (forall q :: IsQueue(s.lf, q) <==> q in s.hist)
            && (forall q :: IsQueue(s.lf, q) <==> q in s.st.at.buffers)
  {
    hide LifeInv, OrderOk, FlowOk, LateOk, ArmedOk, QuietOk, CapacityOk, CallersOk, OwnersOk, DutyOk, IsHistory, StateAfter, IsQueue;
    hide FullOk, BuffersOk, QueuedOk, PoolOk;
    AlwaysInv(ls);
    var s := StateAfter(ls);
    forall h | h in s.st.at.held ensures LogsFor(s, h) {
      HeldHasOwner(s, h);
    }
    forall r | r in s.callers && Holds(s.callers[r]) ensures InHandOf(s, ByProducer(r)) && s.callers[r].q in s.hist {
      HolderHas(s, r);
    }
    forall h | h in s.draining ensures s.draining[h] in s.hist {
      DrainedIsQueue(s, h);
    }
  }

  lemma HeldHasOwner(s: State, h: Holder)
    requires Base(s) && h in s.st.at.held
    ensures LogsFor(s, h)
  {
    hide FullOk, BuffersOk, QueuedOk, PoolOk;
    assert OwnerOk(s, s.st.at.held[h]);
    assert CallerOk(s, s.st.rp.owner[s.st.at.held[h]]);
  }

  lemma HolderHas(s: State, r: Req)
    requires Base(s) && QueuesMatch(s) && r in s.callers && Holds(s.callers[r])
    ensures InHandOf(s, ByProducer(r)) && s.callers[r].q in s.hist
  {
    hide FullOk, BuffersOk, QueuedOk, PoolOk, OwnersOk, IsQueue;
    assert CallerOk(s, r);
  }

  lemma DrainedIsQueue(s: State, h: Holder)
    requires DutiesOk(s) && QueuesMatch(s) && h in s.draining
    ensures s.draining[h] in s.hist
  {
    hide IsQueue, DutyOf;
    assert DutyOk(s, h);
  }
}
