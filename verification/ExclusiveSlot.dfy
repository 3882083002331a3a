/**
 beginExclusiveClientOp and AwaitReconnect for one client ID: the LoadOrStore / CompareAndSwap loop on
 the client's slot, one step per atomic action, for any number of concurrent callers and waiters. The
 operation a caller allocates is named by the caller.
 */
module ExclusiveSlot {
  import opened Options

  type Op = nat

  datatype Pc =
    | Loading                      // about to LoadOrStore
    | Seen(other: Op)              // found another operation in the slot, about to look at its done channel
    | Swapping(other: Op)          // that one had finished, about to CompareAndSwap
    | Holding                      // begin returned ok; the operation runs
    | Closing                      // finish has written the error, about to close done
    | Finished
    | Rejected

  datatype Waiter = Waiting(op: Op) | Told(op: Op, err: string) | GaveUp

  /** `err` and `done` are the fields of each operation; `slot` is the map entry of the client ID. */
  datatype State = State(
    slot: Option<Op>, pcs: map<Op, Pc>, err: map<Op, string>, done: set<Op>, waiters: map<nat, Waiter>)

  const INITIAL := State(None, map[], map[], {}, map[])

  datatype Label =
    | Begin(k: Op) | LoadOrStore(k: Op) | Look(k: Op) | Swap(k: Op)
    | SetError(k: Op, e: string) | CloseDone(k: Op)
    | Await(w: nat) | Notice(w: nat) | TimeOut(w: nat)

  predicate At(s: State, k: Op, pc: Pc) { k in s.pcs && s.pcs[k] == pc }

  predicate Enabled(s: State, l: Label) {
    match l
    case Begin(k) => k !in s.pcs
    case LoadOrStore(k) => At(s, k, Loading)
    case Look(k) => k in s.pcs && s.pcs[k].Seen?
    case Swap(k) => k in s.pcs && s.pcs[k].Swapping?
    case SetError(k, _) => At(s, k, Holding)
    case CloseDone(k) => At(s, k, Closing)
    case Await(w) => w !in s.waiters
    case Notice(w) => w in s.waiters && s.waiters[w].Waiting? && s.waiters[w].op in s.done && s.waiters[w].op in s.err
    case TimeOut(w) => w in s.waiters && s.waiters[w].Waiting?
  }

  function Go(s: State, k: Op, pc: Pc): State { s.(pcs := s.pcs[k := pc]) }

  function Next(s: State, l: Label): State
    requires Enabled(s, l)
  {
    match l
    case Begin(k) => Go(s, k, Loading)
    case LoadOrStore(k) => if s.slot == None then Go(s, k, Holding).(slot := Some(k)) else Go(s, k, Seen(s.slot.value))
    case Look(k) => Go(s, k, if s.pcs[k].other in s.done then Swapping(s.pcs[k].other) else Rejected)
    case Swap(k) =>
      if s.slot == Some(s.pcs[k].other) then Go(s, k, Holding).(slot := Some(k)) else Go(s, k, Loading)
    case SetError(k, e) => Go(s, k, Closing).(err := s.err[k := e])
    case CloseDone(k) => Go(s, k, Finished).(done := s.done + {k})
    case Await(w) => s.(waiters := s.waiters[w := if s.slot == None then GaveUp else Waiting(s.slot.value)])
    case Notice(w) => s.(waiters := s.waiters[w := Told(s.waiters[w].op, s.err[s.waiters[w].op])])
    case TimeOut(w) => s.(waiters := s.waiters[w := GaveUp])
  }

  predicate Holds(s: State, k: Op) { k in s.pcs && (s.pcs[k].Holding? || s.pcs[k].Closing?) }

  /** The slot holds the one unfinished operation, or the last finished one. */
  ghost predicate SlotOk(s: State) {
    && (forall k: Op :: Holds(s, k) ==> s.slot == Some(k))
    && (s.slot.Some? ==> Holds(s, s.slot.value) || At(s, s.slot.value, Finished))
    && (forall k: Op :: k in s.pcs && s.pcs[k].Seen? ==> s.pcs[k].other in s.pcs && s.pcs[k].other != k)
    && (forall k: Op :: k in s.pcs && s.pcs[k].Swapping? ==> s.pcs[k].other in s.done)
  }

  ghost predicate DoneOk(s: State) {
    && (forall k: Op :: k in s.done <==> At(s, k, Finished))
    && (forall k: Op :: At(s, k, Closing) || At(s, k, Finished) ==> k in s.err)
  }

  ghost predicate WaitersOk(s: State) {
    forall w: nat :: w in s.waiters && s.waiters[w].Told? ==>
      s.waiters[w].op in s.done && s.waiters[w].op in s.err && s.waiters[w].err == s.err[s.waiters[w].op]
  }

  ghost predicate Inv(s: State) { SlotOk(s) && DoneOk(s) && WaitersOk(s) }

  lemma SlotKept(s: State, l: Label)
    requires SlotOk(s) && DoneOk(s) && Enabled(s, l)
    ensures SlotOk(Next(s, l))
  {
  }

  lemma DoneKept(s: State, l: Label)
    requires DoneOk(s) && Enabled(s, l)
    ensures DoneOk(Next(s, l))
  {
  }

  lemma DoneIsFinal(s: State, l: Label, k: Op)
    requires DoneOk(s) && Enabled(s, l) && k in s.done
    ensures k in s.err && k in Next(s, l).done && k in Next(s, l).err && Next(s, l).err[k] == s.err[k]
  {
  }

  lemma WaitersKept(s: State, l: Label)
    requires DoneOk(s) && WaitersOk(s) && Enabled(s, l)
    ensures WaitersOk(Next(s, l))
  {
    hide DoneOk;
    var s' := Next(s, l);
    forall w: nat | w in s'.waiters && s'.waiters[w].Told?
      ensures s'.waiters[w].op in s'.done && s'.waiters[w].op in s'.err && s'.waiters[w].err == s'.err[s'.waiters[w].op]
    {
      if s'.waiters[w].op in s.done { DoneIsFinal(s, l, s'.waiters[w].op); }
    }
  }

  lemma StepKeepsInv(s: State, l: Label)
    requires Inv(s) && Enabled(s, l)
    ensures Inv(Next(s, l))
  {
    hide SlotOk, DoneOk, WaitersOk, Enabled, Next;
    SlotKept(s, l);
    DoneKept(s, l);
    WaitersKept(s, l);
  }

  predicate CanRun(s: State, ls: seq<Label>)
    decreases |ls|, 0
  {
    ls == [] || (CanRun(s, ls[..|ls| - 1]) && Enabled(AfterRun(s, ls[..|ls| - 1]), ls[|ls| - 1]))
  }

  function AfterRun(s: State, ls: seq<Label>): State
    requires CanRun(s, ls)
    decreases |ls|, 1
  {
    if ls == [] then s else Next(AfterRun(s, ls[..|ls| - 1]), ls[|ls| - 1])
  }

  lemma {:induction false} RunKeepsInv(s: State, ls: seq<Label>)
    requires Inv(s) && CanRun(s, ls)
    ensures Inv(AfterRun(s, ls))
    decreases |ls|
  {
    hide Inv, Enabled, Next;
    if ls != [] {
      RunKeepsInv(s, ls[..|ls| - 1]);
      StepKeepsInv(AfterRun(s, ls[..|ls| - 1]), ls[|ls| - 1]);
    }
  }

  lemma AlwaysInv(ls: seq<Label>)
    requires CanRun(INITIAL, ls)
    ensures Inv(AfterRun(INITIAL, ls))
  {
    RunKeepsInv(INITIAL, ls);
  }

  /** At most one operation of the client is unfinished, in every interleaving. */
  lemma MutualExclusion(ls: seq<Label>, j: Op, k: Op)
    requires CanRun(INITIAL, ls) && Holds(AfterRun(INITIAL, ls), j) && Holds(AfterRun(INITIAL, ls), k)
    ensures j == k
  {
    AlwaysInv(ls);
  }

  /** A caller is turned away only by an operation that was unfinished when it looked. */
  lemma RejectionIsJustified(s: State, k: Op)
    requires Inv(s) && Enabled(s, Look(k)) && At(Next(s, Look(k)), k, Rejected)
    ensures s.pcs[k].other in s.pcs && !At(s, s.pcs[k].other, Finished)
  {
  }

  /** A finished operation never blocks: a caller that finds only finished ones gets the slot. */
  lemma FinishedNeverBlocks(s: State, k: Op) returns (ls: seq<Label>)
    requires Inv(s) && At(s, k, Loading) && forall j :: !Holds(s, j)
    ensures CanRun(s, ls) && |ls| <= 3 && At(AfterRun(s, ls), k, Holding)
    ensures forall i :: 0 <= i < |ls| ==> ls[i] in {LoadOrStore(k), Look(k), Swap(k)}
  {
    ls := [LoadOrStore(k)];
    OneMore(s, [], LoadOrStore(k));
    var s1 := Next(s, LoadOrStore(k));
    if s.slot.Some? {
      var s2 := Next(s1, Look(k));
      assert s2.pcs[k] == Swapping(s.slot.value);
      OneMore(s, ls, Look(k));
      ls := ls + [Look(k)];
      OneMore(s, ls, Swap(k));
      ls := ls + [Swap(k)];
    }
  }

  lemma OneMore(s: State, ls: seq<Label>, l: Label)
    requires CanRun(s, ls) && Enabled(AfterRun(s, ls), l)
    ensures CanRun(s, ls + [l]) && AfterRun(s, ls + [l]) == Next(AfterRun(s, ls), l)
  {
    hide Enabled, Next;
    assert (ls + [l])[..|ls|] == ls;
  }

  lemma FinishedHasError(s: State, k: Op)
    requires DoneOk(s) && k in s.done
    ensures k in s.err
  {
  }

  /** The error an operation ended with is final once it is finished. */
  lemma {:induction false} ErrorIsFinal(s: State, ls: seq<Label>, k: Op)
    requires Inv(s) && CanRun(s, ls) && k in s.done
    ensures k in s.err && k in AfterRun(s, ls).done && k in AfterRun(s, ls).err && AfterRun(s, ls).err[k] == s.err[k]
    decreases |ls|
  {
    hide SlotOk, DoneOk, WaitersOk, Enabled, Next;
    if ls == [] {
      FinishedHasError(s, k);
    } else {
      ErrorIsFinal(s, ls[..|ls| - 1], k);
      RunKeepsInv(s, ls[..|ls| - 1]);
      DoneIsFinal(AfterRun(s, ls[..|ls| - 1]), ls[|ls| - 1], k);
    }
  }

  /** AwaitReconnect returning true reports the final error of a finished operation. */
  lemma AwaitReportsFinalError(ls: seq<Label>, more: seq<Label>, w: nat)
    requires CanRun(INITIAL, ls) && w in AfterRun(INITIAL, ls).waiters && AfterRun(INITIAL, ls).waiters[w].Told?
    requires CanRun(AfterRun(INITIAL, ls), more)
    ensures var s, t := AfterRun(INITIAL, ls), AfterRun(AfterRun(INITIAL, ls), more);
            var told := s.waiters[w];
            At(s, told.op, Finished) && told.op in t.err && t.err[told.op] == told.err
  {
    AlwaysInv(ls);
    ErrorIsFinal(AfterRun(INITIAL, ls), more, AfterRun(INITIAL, ls).waiters[w].op);
  }
}
