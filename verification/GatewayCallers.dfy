/**
 What every request can rely on: its message is where its own goroutine believes it is, it is
 settled at most once, its reply channels are empty until then, and the post-LLM hooks run at most
 once after it was enqueued.
 */
module GatewayCallers {
  import opened Options
  import opened MessageStore
  import opened QueueLife
  import opened Gateway
  import opened GatewayDuties

  predicate RefersTo(c: Caller, m: Msg) {
    (c.Awaiting? || c.Answered? || c.Abandoned?) && c.m == m
  }

  /** What a settled message looks like to its caller. */
  ghost predicate SettledAs(s: State, r: Req, m: Msg, f: Fate)
    requires m in s.st.rp.wires && r in s.hooks
  {
    match f
    case Replied(port) => s.hooks[r] == 0 && exists c :: c in s.st.rp.wires[m] && c in s.st.rp.full && c.port == port
    case CallerGone => s.hooks[r] <= 1 && s.st.rp.wires[m] !! s.st.rp.full
    case Dropped => s.hooks[r] == 0 && s.st.rp.wires[m] !! s.st.rp.full
    case TimedOut => false
  }

  /** `m` is the message of the enqueued request `r`. */
  ghost predicate Owns(s: State, r: Req, m: Msg) {
    m in s.st.at.home && m in s.st.rp.owner && m in s.st.rp.wires && s.st.rp.owner[m] == r
  }

  predicate IsUnderway(pl: Place) { pl.InQueue? || (pl.InHand? && !pl.h.ByProducer?) }

  ghost predicate Sent(s: State, r: Req, m: Msg)
    requires r in s.log && r in s.hooks
  {
    && Owns(s, r, m)
    && (if s.st.at.home[m].Settled? then |s.log[r]| == 1 && SettledAs(s, r, m, s.log[r][0])
        else IsUnderway(s.st.at.home[m]) && s.log[r] == [] && s.hooks[r] == 0)
  }

  ghost predicate CallerOk(s: State, r: Req)
    requires r in s.callers
  {
    && r in s.log && r in s.hooks
    && match s.callers[r]
       case Awaiting(m) => Sent(s, r, m)
       case Abandoned(m) => Sent(s, r, m)
       case Answered(m, port) =>
         && Owns(s, r, m) && s.st.at.home[m].Settled? && s.log[r] == [Replied(port)] && s.hooks[r] == 0
         && s.st.rp.wires[m] !! s.st.rp.full
       case Returned => |s.log[r]| <= 1 && s.hooks[r] <= 1
       case Routed(q) => q in s.st.at.buffers && s.log[r] == [] && s.hooks[r] == 0
       case _ =>
         && s.callers[r].q in s.st.at.buffers && s.log[r] == [] && s.hooks[r] == 0
         && ByProducer(r) in s.st.at.held && s.st.at.held[ByProducer(r)] in s.st.rp.owner
         && s.st.rp.owner[s.st.at.held[ByProducer(r)]] == r
  }

  ghost predicate CallersOk(s: State) {
    forall r :: r in s.callers ==> CallerOk(s, r)
  }

  /** Every message outside the pool is known to the one request it belongs to. */
  ghost predicate OwnerOk(s: State, m: Msg)
    requires m in s.st.rp.owner && m in s.st.at.home
  {
    var r := s.st.rp.owner[m];
    && r in s.callers
    && (if s.st.at.home[m].InHand? && s.st.at.home[m].h.ByProducer?
        then s.st.at.home[m].h.r == r && Holds(s.callers[r])
        else RefersTo(s.callers[r], m))
  }

  ghost predicate OwnersOk(s: State) {
    forall m :: m in s.st.rp.owner && m in s.st.at.home ==> OwnerOk(s, m)
  }

  ghost predicate SameMsg(s: State, s': State, m: Msg) {
    && (m in s.st.at.home ==> m in s'.st.at.home && s'.st.at.home[m] == s.st.at.home[m])
    && (m in s.st.rp.owner ==> m in s'.st.rp.owner && s'.st.rp.owner[m] == s.st.rp.owner[m])
    && (m in s.st.rp.wires ==> m in s'.st.rp.wires && s'.st.rp.wires[m] == s.st.rp.wires[m])
    && (m in s.st.rp.wires ==> forall c :: c in s.st.rp.wires[m] ==> (c in s'.st.rp.full <==> c in s.st.rp.full))
  }

  ghost predicate SameRecord(s: State, s': State, r: Req) {
    && r in s.callers && r in s'.callers && s'.callers[r] == s.callers[r]
    && (r in s.log ==> r in s'.log && s'.log[r] == s.log[r])
    && (r in s.hooks ==> r in s'.hooks && s'.hooks[r] == s.hooks[r])
    && s.st.at.buffers.Keys <= s'.st.at.buffers.Keys
  }

  lemma SentFrame(s: State, s': State, r: Req, m: Msg)
    requires SameRecord(s, s', r) && r in s.log && r in s.hooks && Sent(s, r, m) && SameMsg(s, s', m)
    ensures Sent(s', r, m)
  {
  }

  /** A request whose record and message did not change is still fine. */
  lemma CallerFrame(s: State, s': State, r: Req)
    requires SameRecord(s, s', r) && CallerOk(s, r)
    requires forall m :: RefersTo(s.callers[r], m) ==> SameMsg(s, s', m)
    requires Holds(s.callers[r]) ==>
               && ByProducer(r) in s'.st.at.held && s'.st.at.held[ByProducer(r)] == s.st.at.held[ByProducer(r)]
               && SameMsg(s, s', s.st.at.held[ByProducer(r)])
    ensures CallerOk(s', r)
  {
    hide SettledAs, Sent;
    if s.callers[r].Awaiting? || s.callers[r].Abandoned? {
      assert RefersTo(s.callers[r], s.callers[r].m);
      SentFrame(s, s', r, s.callers[r].m);
    } else if s.callers[r].Answered? {
      assert RefersTo(s.callers[r], s.callers[r].m);
    }
  }

  /** Taking or moving a message under way changes nothing for its caller. */
  lemma CallersAfterCarry(s: State, s': State, m: Msg, pl: Place)
    requires CallersOk(s) && s'.callers == s.callers && s'.log == s.log && s'.hooks == s.hooks && s'.st.rp == s.st.rp
    requires s.st.at.buffers.Keys <= s'.st.at.buffers.Keys
    requires m in s.st.at.home && IsUnderway(s.st.at.home[m])
    requires IsUnderway(pl) && s'.st.at.home == s.st.at.home[m := pl]
    requires forall r :: ByProducer(r) in s.st.at.held ==>
               ByProducer(r) in s'.st.at.held && s'.st.at.held[ByProducer(r)] == s.st.at.held[ByProducer(r)]
    ensures CallersOk(s')
  {
    forall r | r in s'.callers ensures CallerOk(s', r) {
      assert CallerOk(s, r);
    }
  }

  ghost predicate Base(s: State) {
    Valid(s.st) && CallersOk(s) && OwnersOk(s)
  }

  lemma OthersKeepSlots(s: State, m: Msg, n: Msg, reply: set<Chan>)
    requires WiresOk(s.st.rp) && m in s.st.rp.wires && n in s.st.rp.wires && m != n && reply <= s.st.rp.wires[m]
    ensures s.st.rp.wires[n] !! reply
  {
    forall c | c in s.st.rp.wires[n] ensures c !in reply {
      assert s.st.rp.lead[c] == Some(n);
    }
  }

  // ----- settling -----

  ghost predicate FateFits(reply: set<Chan>, fate: Fate, bill: bool) {
    match fate
    case Replied(port) => !bill && exists c :: reply == {c} && c.port == port
    case CallerGone => reply == {}
    case Dropped => reply == {} && !bill
    case TimedOut => false
  }

  /** The request a message in some other goroutine's hand belongs to: still waiting or gone, not yet settled. */
  lemma HeldIsSent(s: State, h: Holder)
    requires Base(s) && LogsFor(s, h) && !h.ByProducer?
    ensures var r, m := OwnerOf(s, h), MsgOf(s, h);
            && r in s.callers && (s.callers[r] == Awaiting(m) || s.callers[r] == Abandoned(m))
            && Sent(s, r, m) && s.log[r] == [] && s.hooks[r] == 0 && s.st.at.home[m] == InHand(h)
            && s.st.rp.wires[m] !! s.st.rp.full
  {
    var r, m := OwnerOf(s, h), MsgOf(s, h);
    assert s.st.at.home[m] == InHand(h);
    assert OwnerOk(s, m);
    assert CallerOk(s, r);
    SlotsEmptyUntilSettled(s.st, m);
  }

  lemma SettledCaller(s: State, h: Holder, reply: set<Chan>, fate: Fate, bill: bool)
    requires Base(s) && LogsFor(s, h) && !h.ByProducer?
    requires reply <= s.st.rp.wires[MsgOf(s, h)] && FateFits(reply, fate, bill)
    ensures OwnerOf(s, h) in s.callers && CallerOk(SettleBy(s, h, reply, fate, bill), OwnerOf(s, h))
  {
    hide Valid, CallersOk, OwnersOk;
    HeldIsSent(s, h);
  }

  lemma OtherAfterSettle(s: State, h: Holder, reply: set<Chan>, fate: Fate, bill: bool, r: Req)
    requires Base(s) && LogsFor(s, h) && !h.ByProducer? && reply <= s.st.rp.wires[MsgOf(s, h)]
    requires r in s.callers && r != OwnerOf(s, h)
    ensures CallerOk(SettleBy(s, h, reply, fate, bill), r)
  {
    hide PlacesOk, FullOk, OwnersOk;
    var s' := SettleBy(s, h, reply, fate, bill);
    assert CallerOk(s, r);
    forall n | n in s.st.rp.wires && n != MsgOf(s, h) ensures s.st.rp.wires[n] !! reply {
      OthersKeepSlots(s, MsgOf(s, h), n, reply);
    }
    if Holds(s.callers[r]) {
      assert SameMsg(s, s', s.st.at.held[ByProducer(r)]);
    }
    CallerFrame(s, s', r);
  }

  lemma SettleKeepsBase(s: State, h: Holder, reply: set<Chan>, fate: Fate, bill: bool)
    requires Base(s) && LogsFor(s, h) && !h.ByProducer?
    requires reply <= s.st.rp.wires[MsgOf(s, h)] && FateFits(reply, fate, bill)
    ensures Base(SettleBy(s, h, reply, fate, bill))
  {
    hide Valid, CallerOk, OwnerOk;
    var s' := SettleBy(s, h, reply, fate, bill);
    SettleKeepsValid(s.st, h, reply);
    forall r | r in s'.callers ensures CallerOk(s', r) {
      if r == OwnerOf(s, h) {
        SettledCaller(s, h, reply, fate, bill);
      } else {
        OtherAfterSettle(s, h, reply, fate, bill, r);
      }
    }
    SettleOwners(s, h, reply, fate, bill);
  }

  lemma SettleOwners(s: State, h: Holder, reply: set<Chan>, fate: Fate, bill: bool)
    requires Base(s) && LogsFor(s, h) && !h.ByProducer?
    ensures OwnersOk(SettleBy(s, h, reply, fate, bill))
  {
    hide CallersOk;
    var s' := SettleBy(s, h, reply, fate, bill);
    assert s.st.at.home[MsgOf(s, h)] == InHand(h);
    forall m | m in s'.st.rp.owner && m in s'.st.at.home ensures OwnerOk(s', m) {
      assert OwnerOk(s, m);
    }
  }

  // ----- carrying -----

  lemma CarryOwners(s: State, s': State, m: Msg, pl: Place)
    requires OwnersOk(s) && s'.callers == s.callers && s'.st.rp == s.st.rp
    requires m in s.st.at.home && IsUnderway(s.st.at.home[m]) && IsUnderway(pl) && s'.st.at.home == s.st.at.home[m := pl]
    ensures OwnersOk(s')
  {
    forall n | n in s'.st.rp.owner && n in s'.st.at.home ensures OwnerOk(s', n) {
      assert OwnerOk(s, n);
    }
  }

  lemma HeadIsQueued(s: State, q: QId)
    requires Valid(s.st) && HasItem(s.st.at, q)
    ensures var m := s.st.at.buffers[q].items[0]; m in s.st.at.home && s.st.at.home[m] == InQueue(q)
  {
    hide WiresOk, FullOk, Linked, HandsOk, PoolOk, BuffersOk;
    assert s.st.at.buffers[q].items[0] in s.st.at.buffers[q].items;
  }

  lemma TakeKeepsBase(s: State, s': State, q: QId, h: Holder)
    requires Base(s) && HasItem(s.st.at, q) && h !in s.st.at.held && !h.ByProducer?
    requires s'.st == s.st.(at := Take(s.st.at, q, h)) && s'.callers == s.callers && s'.log == s.log && s'.hooks == s.hooks
    ensures Base(s')
  {
    hide CallersOk, OwnersOk, Valid;
    TakeKeepsValid(s.st, q, h);
    var m := s.st.at.buffers[q].items[0];
    HeadIsQueued(s, q);
    CallersAfterCarry(s, s', m, InHand(h));
    CarryOwners(s, s', m, InHand(h));
  }

  lemma OfferKeepsBase(s: State, s': State, h: Holder, q: QId)
    requires Base(s) && h in s.st.at.held && HasRoom(s.st.at, q) && !h.ByProducer?
    requires s'.st == s.st.(at := Offer(s.st.at, h, q)) && s'.callers == s.callers && s'.log == s.log && s'.hooks == s.hooks
    ensures Base(s')
  {
    hide CallersOk, OwnersOk, WiresOk, FullOk, Linked, QueuedOk, PoolOk, BuffersOk;
    OfferKeepsValid(s.st, h, q);
    var m := s.st.at.held[h];
    CallersAfterCarry(s, s', m, InQueue(q));
    CarryOwners(s, s', m, InQueue(q));
  }

  lemma SameKeepsBase(s: State, s': State)
    requires Base(s) && s'.st == s.st && s'.callers == s.callers && s'.log == s.log && s'.hooks == s.hooks
    ensures Base(s')
  {
    hide Valid;
    forall r | r in s'.callers ensures CallerOk(s', r) {
      assert CallerOk(s, r);
    }
    forall m | m in s'.st.rp.owner && m in s'.st.at.home ensures OwnerOk(s', m) {
      assert OwnerOk(s, m);
    }
  }

  // ----- the caller's own steps -----

  /** Steps that only move the caller's program counter between states without or with the message in hand. */
  lemma PcKeepsBase(s: State, r: Req, c: Caller)
    requires Base(s) && r in s.callers && Holds(s.callers[r]) && Holds(c) && c.q in s.st.at.buffers
    ensures Base(Moves(s, r, c))
  {
    hide Valid;
    var s' := Moves(s, r, c);
    forall x | x in s'.callers ensures CallerOk(s', x) {
      assert CallerOk(s, x);
    }
    forall m | m in s'.st.rp.owner && m in s'.st.at.home ensures OwnerOk(s', m) {
      assert OwnerOk(s, m);
    }
  }

  lemma StartKeepsBase(s: State, r: Req, p: Provider, stream: bool)
    requires Base(s) && CanCall(s, r, Start(p, stream))
    requires QId(p, s.lf.desks[p].route.value) in s.st.at.buffers
    ensures Base(AfterCall(s, r, Start(p, stream)))
  {
    hide Valid;
    var s' := AfterCall(s, r, Start(p, stream));
    forall x | x in s'.callers ensures CallerOk(s', x) {
      if x != r { assert CallerOk(s, x); }
    }
    forall m | m in s'.st.rp.owner && m in s'.st.at.home ensures OwnerOk(s', m) {
      assert OwnerOk(s, m);
    }
  }

  /** A message taken from the pool, or new, belongs to nobody. */
  lemma AcquiredIsFree(s: State, r: Req, m: Msg, cs: set<Chan>, stream: bool)
    requires Base(s) && CanAcquire(s.st, r, m, cs, stream)
    ensures m !in s.st.rp.wires && m !in s.st.rp.owner
    ensures WireUp(s.st.rp, r, m, cs).full == s.st.rp.full
  {
    WireUpOk(s.st.rp, r, m, cs);
  }

  lemma PrepareKeepsBase(s: State, r: Req, m: Msg, cs: set<Chan>)
    requires Base(s) && CanCall(s, r, Prepare(m, cs))
    ensures Base(AfterCall(s, r, Prepare(m, cs)))
  {
    hide CallersOk, OwnersOk, Valid;
    AcquireKeepsValid(s.st, r, m, cs, r in s.streaming);
    AcquiredIsFree(s, r, m, cs, r in s.streaming);
    PrepareCallers(s, r, m, cs);
    PrepareOwners(s, r, m, cs);
  }

  lemma WireUpEffect(rp: Replies, r: Req, m: Msg, cs: set<Chan>)
    ensures var rp' := WireUp(rp, r, m, cs); rp'.owner == rp.owner[m := r] && rp'.wires == rp.wires[m := cs]
  {
  }

  lemma PrepareCallers(s: State, r: Req, m: Msg, cs: set<Chan>)
    requires CallersOk(s) && CanCall(s, r, Prepare(m, cs))
    requires m !in s.st.rp.wires && m !in s.st.rp.owner && WireUp(s.st.rp, r, m, cs).full == s.st.rp.full
    ensures CallersOk(AfterCall(s, r, Prepare(m, cs)))
  {
    hide CanAcquire, SettledAs, WireUp;
    var s' := AfterCall(s, r, Prepare(m, cs));
    WireUpEffect(s.st.rp, r, m, cs);
    forall x | x in s'.callers ensures CallerOk(s', x) {
      assert CallerOk(s, x);
      if x != r {
        forall n | RefersTo(s.callers[x], n) ensures SameMsg(s, s', n) { }
        if Holds(s.callers[x]) { assert SameMsg(s, s', s.st.at.held[ByProducer(x)]); }
        CallerFrame(s, s', x);
      }
    }
  }

  lemma PrepareOwners(s: State, r: Req, m: Msg, cs: set<Chan>)
    requires OwnersOk(s) && CanCall(s, r, Prepare(m, cs)) && m !in s.st.rp.wires && m !in s.st.rp.owner
    ensures OwnersOk(AfterCall(s, r, Prepare(m, cs)))
  {
    hide CanAcquire, WireUp;
    var s' := AfterCall(s, r, Prepare(m, cs));
    WireUpEffect(s.st.rp, r, m, cs);
    forall n | n in s'.st.rp.owner && n in s'.st.at.home ensures OwnerOk(s', n) {
      if n != m { assert OwnerOk(s, n); }
    }
  }

  /** Dropping `m` from the wires touches no other message. */
  lemma UnwireFrame(s: State, s': State, m: Msg, n: Msg)
    requires WiresOk(s.st.rp) && m in s.st.rp.wires && n != m && s'.st.rp == Unwire(s.st.rp, m)
    requires s'.st.at.home == s.st.at.home[m := Pooled]
    ensures SameMsg(s, s', n)
  {
    if n in s.st.rp.wires {
      forall c | c in s.st.rp.wires[n] ensures c !in s.st.rp.wires[m] {
        assert s.st.rp.lead[c] == Some(n);
      }
    }
  }

  lemma ReleaseRest(s: State, s': State, r: Req, m: Msg)
    requires CallersOk(s) && OwnersOk(s) && WiresOk(s.st.rp) && m in s.st.rp.wires && m in s.st.rp.owner && s.st.rp.owner[m] == r
    requires s'.st.rp == Unwire(s.st.rp, m) && s'.st.at.home == s.st.at.home[m := Pooled]
    requires s'.st.at.buffers == s.st.at.buffers
    requires forall x :: x != r && ByProducer(x) in s.st.at.held ==>
               ByProducer(x) in s'.st.at.held && s'.st.at.held[ByProducer(x)] == s.st.at.held[ByProducer(x)]
    requires r in s.callers && s'.callers == s.callers[r := Returned] && s'.log == s.log
    requires r in s.log && r in s'.hooks && |s.log[r]| <= 1 && s'.hooks[r] <= 1
    requires forall x :: x in s.hooks && x != r ==> x in s'.hooks && s'.hooks[x] == s.hooks[x]
    requires forall n :: n in s.st.rp.owner && n != m ==> s.st.rp.owner[n] != r
    ensures CallersOk(s') && OwnersOk(s')
  {
    hide SettledAs, WiresOk, Unwire;
    forall x | x in s'.callers ensures CallerOk(s', x) {
      assert CallerOk(s, x);
      if x != r {
        forall n | RefersTo(s.callers[x], n) ensures SameMsg(s, s', n) { UnwireFrame(s, s', m, n); }
        if Holds(s.callers[x]) { UnwireFrame(s, s', m, s.st.at.held[ByProducer(x)]); }
        CallerFrame(s, s', x);
      }
    }
    UnwireOwners(s, s', m);
    forall n | n in s'.st.rp.owner && n in s'.st.at.home ensures OwnerOk(s', n) {
      assert OwnerOk(s, n);
    }
  }

  lemma UnwireOwners(s: State, s': State, m: Msg)
    requires m in s.st.rp.wires && s'.st.rp == Unwire(s.st.rp, m)
    ensures forall n :: n in s'.st.rp.owner <==> n in s.st.rp.owner && n != m
    ensures forall n :: n in s'.st.rp.owner ==> s'.st.rp.owner[n] == s.st.rp.owner[n]
  {
  }

  /** A request has one message at a time. */
  lemma OneMessage(s: State, r: Req, m: Msg)
    requires Base(s) && m in s.st.rp.owner && s.st.rp.owner[m] == r
    ensures forall n :: n in s.st.rp.owner && n != m ==> s.st.rp.owner[n] != r
  {
    hide CallersOk;
    assert OwnerOk(s, m);
    forall n | n in s.st.rp.owner && n != m ensures s.st.rp.owner[n] != r {
      assert OwnerOk(s, n);
    }
  }

  lemma RefuseKeepsBase(s: State, r: Req)
    requires Base(s) && InHandOf(s, ByProducer(r)) && r in s.callers && Holds(s.callers[r])
    ensures Base(Refuse(s, r))
  {
    hide CallersOk, OwnersOk, PlacesOk, FullOk, Linked;
    assert CallerOk(s, r) by { RefuseCaller(s, r); }
    var m := s.st.at.held[ByProducer(r)];
    ReturnKeepsValid(s.st, r);
    OneMessage(s, r, m);
    ReleaseRest(s, Refuse(s, r), r, m);
  }

  lemma RefuseCaller(s: State, r: Req)
    requires CallersOk(s) && r in s.callers
    ensures CallerOk(s, r)
  {
  }

  lemma FinishKeepsBase(s: State, r: Req)
    requires Base(s) && CanCall(s, r, Finish)
    ensures Base(AfterCall(s, r, Finish))
  {
    hide CallersOk, OwnersOk, FullOk, Linked, HandsOk, QueuedOk, BuffersOk;
    RefuseCaller(s, r);
    var m := s.callers[r].m;
    assert m in s.st.at.settled;
    RecycleKeepsValid(s.st, m);
    OneMessage(s, r, m);
    ReleaseRest(s, AfterCall(s, r, Finish), r, m);
  }

  lemma SendKeepsBase(s: State, r: Req)
    requires Base(s) && CanCall(s, r, Send)
    ensures Base(AfterCall(s, r, Send))
  {
    hide CallersOk, OwnersOk;
    OfferKeepsValid(s.st, ByProducer(r), s.callers[r].q);
    assert s.st.at.home[s.st.at.held[ByProducer(r)]] == InHand(ByProducer(r));
    OneMessageInHand(s, r);
    SendRest(s, r);
  }

  lemma OneMessageInHand(s: State, r: Req)
    requires Base(s) && r in s.callers && Holds(s.callers[r])
    ensures var h := ByProducer(r);
            && h in s.st.at.held && s.st.at.held[h] in s.st.rp.owner && s.st.at.held[h] in s.st.rp.wires
            && s.st.rp.owner[s.st.at.held[h]] == r
            && forall n :: n in s.st.rp.owner && n != s.st.at.held[h] ==> s.st.rp.owner[n] != r
  {
    RefuseCaller(s, r);
    OneMessage(s, r, s.st.at.held[ByProducer(r)]);
  }

  lemma SendRest(s: State, r: Req)
    requires CallersOk(s) && OwnersOk(s) && CanCall(s, r, Send) && Holds(s.callers[r])
    requires s.st.at.held[ByProducer(r)] in s.st.at.home && s.st.at.home[s.st.at.held[ByProducer(r)]] == InHand(ByProducer(r))
    requires forall n :: n in s.st.rp.owner && n != s.st.at.held[ByProducer(r)] ==> s.st.rp.owner[n] != r
    requires s.st.rp.owner[s.st.at.held[ByProducer(r)]] == r
    ensures CallersOk(AfterCall(s, r, Send)) && OwnersOk(AfterCall(s, r, Send))
  {
    hide SettledAs;
    var s' := AfterCall(s, r, Send);
    var m := s.st.at.held[ByProducer(r)];
    forall x | x in s'.callers ensures CallerOk(s', x) {
      assert CallerOk(s, x);
      if x != r { CallerFrame(s, s', x); }
    }
    forall n | n in s'.st.rp.owner && n in s'.st.at.home ensures OwnerOk(s', n) {
      assert OwnerOk(s, n);
    }
  }

  lemma ReceiveKeepsBase(s: State, r: Req, c: Chan)
    requires Base(s) && CanCall(s, r, ReceiveReply(c))
    ensures Base(AfterCall(s, r, ReceiveReply(c)))
  {
    hide OwnersOk, CallersOk;
    ReceiveKeepsValid(s.st, c);
    ReceiveSlot(s, r, c);
    ReceiveRest(s, r, c);
  }

  ghost predicate ReceivesReply(s: State, r: Req, m: Msg, c: Chan) {
    && Owns(s, r, m) && s.st.at.home[m].Settled? && r in s.log && r in s.hooks
    && s.log[r] == [Replied(c.port)] && s.hooks[r] == 0
    && s.st.rp.wires[m] !! (s.st.rp.full - {c})
    && forall n :: n in s.st.rp.wires && n != m ==> c !in s.st.rp.wires[n]
  }

  /** The value received is the one reply the log records, and it leaves the message's channels empty. */
  lemma ReceiveSlot(s: State, r: Req, c: Chan)
    requires Base(s) && r in s.callers && s.callers[r].Awaiting? && CanCall(s, r, ReceiveReply(c))
    ensures ReceivesReply(s, r, s.callers[r].m, c)
  {
    hide CallersOk, OwnersOk, HandsOk, QueuedOk, BuffersOk;
    RefuseCaller(s, r);
    var m := s.callers[r].m;
    assert s.st.rp.lead[c] == Some(m);
    assert m in s.st.at.settled;
    assert Sent(s, r, m);
    assert forall d :: d in s.st.rp.wires[m] && d in s.st.rp.full ==> s.st.rp.lead[d] == Some(m);
  }

  lemma ReceiveRest(s: State, r: Req, c: Chan)
    requires CallersOk(s) && OwnersOk(s) && CanCall(s, r, ReceiveReply(c))
    requires ReceivesReply(s, r, s.callers[r].m, c)
    ensures CallersOk(AfterCall(s, r, ReceiveReply(c))) && OwnersOk(AfterCall(s, r, ReceiveReply(c)))
  {
    hide SettledAs;
    var s' := AfterCall(s, r, ReceiveReply(c));
    forall x | x in s'.callers ensures CallerOk(s', x) {
      assert CallerOk(s, x);
      if x != r {
        forall n | RefersTo(s.callers[x], n) ensures SameMsg(s, s', n) { }
        if Holds(s.callers[x]) { assert SameMsg(s, s', s.st.at.held[ByProducer(x)]); }
        CallerFrame(s, s', x);
      }
    }
    forall n | n in s'.st.rp.owner && n in s'.st.at.home ensures OwnerOk(s', n) {
      assert OwnerOk(s, n);
    }
  }

  // ----- every step -----

  lemma BaseAfterCall(s: State, r: Req, l: CallStep)
    requires Base(s) && QueuesMatch(s) && DesksOk(s.lf.desks) && CanCall(s, r, l)
    ensures Base(AfterCall(s, r, l))
  {
    hide Base, QueuesMatch, DesksOk, CanAcquire, Holds;
    match l {
      case Start(p, stream) =>
        UpdateQueuesExist(s, p);
        StartKeepsBase(s, r, p, stream);
      case Prepare(m, cs) => PrepareKeepsBase(s, r, m, cs);
      case CheckClosing => HoldsFacts(s, r); PcKeepsBase(s, r, AfterCall(s, r, l).callers[r]);
      case Reroute(p) =>
        HoldsFacts(s, r);
        UpdateQueuesExist(s, p);
        if AfterCall(s, r, l).callers[r].Returned? { RefuseKeepsBase(s, r); } else { PcKeepsBase(s, r, AfterCall(s, r, l).callers[r]); }
      case CheckCandidate =>
        HoldsFacts(s, r);
        if Closing(s, s.callers[r].q) { RefuseKeepsBase(s, r); } else { PcKeepsBase(s, r, Offering(s.callers[r].q)); }
      case Send => SendKeepsBase(s, r);
      case SawDone => HoldsFacts(s, r); RefuseKeepsBase(s, r);
      case SawCancel => HoldsFacts(s, r); RefuseKeepsBase(s, r);
      case SawFull => HoldsFacts(s, r); PcKeepsBase(s, r, Full(s.callers[r].q));
      case DropExcess => HoldsFacts(s, r); RefuseKeepsBase(s, r);
      case Recheck =>
        HoldsFacts(s, r);
        if Closing(s, s.callers[r].q) { RefuseKeepsBase(s, r); } else { PcKeepsBase(s, r, Blocking(s.callers[r].q)); }
      case ReceiveReply(c) => ReceiveKeepsBase(s, r, c);
      case Finish => FinishKeepsBase(s, r);
      case Abandon => AbandonKeepsBase(s, r);
      case Cancel => SameKeepsBase(s, AfterCall(s, r, l));
    }
  }

  lemma HoldsFacts(s: State, r: Req)
    requires Base(s) && r in s.callers
    ensures forall q :: Holds(Prepared(q)) && Holds(Rerouting(q)) && Holds(Candidate(q)) && Holds(Offering(q))
              && Holds(Full(q)) && Holds(Blocking(q))
    ensures var c := s.callers[r];
            c.Prepared? || c.Rerouting? || c.Candidate? || c.Offering? || c.Full? || c.Blocking? ==>
              Holds(c) && c.q in s.st.at.buffers
  {
    assert CallerOk(s, r);
  }

  lemma AbandonKeepsBase(s: State, r: Req)
    requires Base(s) && CanCall(s, r, Abandon)
    ensures Base(AfterCall(s, r, Abandon))
  {
    hide Valid;
    var s' := AfterCall(s, r, Abandon);
    forall x | x in s'.callers ensures CallerOk(s', x) {
      assert CallerOk(s, x);
    }
    forall m | m in s'.st.rp.owner && m in s'.st.at.home ensures OwnerOk(s', m) {
      assert OwnerOk(s, m);
    }
  }

  /** The five-second escape of a reply send is never taken: the slot is free when the send is reached. */
  lemma ReplyNeverTimesOut(s: State, w: WId, c: Chan)
    requires Valid(s.st)
    ensures !CanWork(s, w, TimeOut(c))
  {
    var h := ByWorker(w);
    if InHandOf(s, h) {
      SlotsEmptyUntilSettled(s.st, MsgOf(s, h));
    }
  }

  lemma BaseAfterWork(s: State, w: WId, l: WorkStep)
    requires Base(s) && CanWork(s, w, l)
    ensures Base(AfterWork(s, w, l))
  {
    hide Valid, CallersOk, OwnersOk, CanLife, AfterLife, WorkLife, HasItem;
    var s', h := AfterWork(s, w, l), ByWorker(w);
    match l {
      case Pick => TakeKeepsBase(s, s', w.q, h);
      case Answer(c) =>
        SettleKeepsBase(s, h, {c}, Replied(c.port), false);
        SameKeepsBase(SettleBy(s, h, {c}, Replied(c.port), false), s');
      case CallerLeft =>
        SettleKeepsBase(s, h, {}, CallerGone, OwnerOf(s, h) !in s.streaming);
        SameKeepsBase(SettleBy(s, h, {}, CallerGone, OwnerOf(s, h) !in s.streaming), s');
      case TimeOut(c) => ReplyNeverTimesOut(s, w, c);
      case Panic =>
        SettleKeepsBase(s, h, {}, Dropped, false);
        SameKeepsBase(SettleBy(s, h, {}, Dropped, false), s');
      case _ => SameKeepsBase(s, s');
    }
  }

  lemma BaseAfterDrain(s: State, h: Holder, l: DrainStep)
    requires Base(s) && DutiesOk(s) && CanDrain(s, h, l)
    ensures Base(AfterDrain(s, h, l))
  {
    hide Valid, CallersOk, OwnersOk, HasItem;
    assert DutyOk(s, h);
    match l {
      case DrainTake => TakeKeepsBase(s, AfterDrain(s, h, l), s.draining[h], h);
      case DrainReply(c) => SettleKeepsBase(s, h, {c}, Replied(c.port), false);
      case DrainCallerLeft => SettleKeepsBase(s, h, {}, CallerGone, false);
      case DrainEnd => SameKeepsBase(s, AfterDrain(s, h, l));
    }
  }

  lemma BaseAfterMove(s: State, p: Provider, l: MoveStep)
    requires Base(s) && CanMove(s, p, l)
    ensures Base(AfterMove(s, p, l))
  {
    hide Base, CanLife, AfterLife, MoveLife, HasItem, HasRoom;
    var s' := AfterMove(s, p, l);
    match l {
      case MoveTake => TakeKeepsBase(s, s', OldQueue(s, p), ByController(p));
      case MovePut => OfferKeepsBase(s, s', ByController(p), NextQueue(s, p));
      case _ => SameKeepsBase(s, s');
    }
  }

  lemma BaseAfterControl(s: State, c: ControlStep)
    requires Base(s) && CanControl(s, c)
    ensures Base(AfterControl(s, c))
  {
    hide Base, CanLife, AfterLife, ControlLife;
    var s' := AfterControl(s, c);
    match c {
      case NewQueue(p, n, capacity, _) => AddBufferKeepsBase(s, s', QId(p, n), capacity);
      case Replace(p, n, capacity, _) => AddBufferKeepsBase(s, s', QId(p, n), capacity);
      case _ => SameKeepsBase(s, s');
    }
  }

  lemma AddBufferKeepsBase(s: State, s': State, q: QId, capacity: nat)
    requires Base(s) && q !in s.st.at.buffers && s'.st == s.st.(at := AddBuffer(s.st.at, q, capacity))
    requires s'.callers == s.callers && s'.log == s.log && s'.hooks == s.hooks
    ensures Base(s')
  {
    hide Valid, SettledAs;
    AddBufferKeepsValid(s.st, q, capacity);
    forall r | r in s'.callers ensures CallerOk(s', r) {
      assert CallerOk(s, r);
      CallerFrame(s, s', r);
    }
    forall m | m in s'.st.rp.owner && m in s'.st.at.home ensures OwnerOk(s', m) {
      assert OwnerOk(s, m);
    }
  }
}
