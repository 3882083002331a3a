/**
 The control side of the provider queues: which queue a provider routes to, which worker
 generations run, and how far every controller (`UpdateProvider`, `RemoveProvider`, creation,
 `Shutdown`) and every background cleanup has got. One step per atomic action.

 A `Desk` is everything kept for one provider under its mutex: its queues with their worker
 goroutines and wait group, the routing and wait-group entries, the retired-workers wait group, and
 what the holder of the write lock is doing. Wait groups are counters, as in the source; that they
 count the right goroutines is proved.
 */
module QueueLife {
  import opened Options
  import opened MessageStore

  datatype WorkerPc = Idle | Serving | Panicked | Draining | Leaving | Gone

  /** Where the cleanup of a queue stands; it has a goroutine of its own from `Waiting` on. */
  datatype Phase = Active | Registered | Counted | Waiting | Sweeping | Unretired | Finished

  /** A ProviderQueue (its buffer is in the message store) with the workers of its generation. */
  datatype Queue = Queue(closing: bool, done: bool, wg: nat, crew: map<nat, WorkerPc>, phase: Phase)

  datatype UpdatePc =
    | UGrouping | UStarting | UMoving | UHolding | UCancelling
    | URetiring | UCounting | UFlagging | UClosing | USpawning

  datatype RemovePc = RFlagging | RClosing | RJoining | RSweeping | RRetired | RUnrouting | RUngrouping

  /** What the holder of the provider's write lock is doing. */
  datatype Ctl =
    | Free
    | Creating(q: nat, grouped: bool, left: nat)
    | Updating(prev: nat, next: nat, upc: UpdatePc, left: nat)
    | Removing(gone: nat, rpc: RemovePc)

  /** `route`, `group` and `retired` are the provider's entries in requestQueues, waitGroups and retiredWorkerWaits. */
  datatype Desk = Desk(
    queues: map<nat, Queue>, route: Option<nat>, group: Option<nat>, retired: Option<nat>, ctl: Ctl)

  const EMPTY_DESK := Desk(map[], None, None, None, Free)

  const NEW_QUEUE := Queue(false, false, 0, map[], Active)

  datatype DeskStep =
    | Create(q: nat, n: nat) | Group | StartWorker(k: nat) | Created
    | Update(q: nat, n: nat) | Advance(to: UpdatePc) | Retire | Count | UpdateFlag | UpdateClose | Spawn
    | Remove | RemoveFlag | RemoveClose | RemoveJoin | RemoveSwept | RemoveRetired | Unroute | Ungroup
    | WorkerMove(q: nat, k: nat, wpc: WorkerPc) | WorkerGone(q: nat, k: nat)
    | CleanupJoin(q: nat) | CleanupUnretire(q: nat) | CleanupFinish(q: nat)
    | Flag(q: nat) | Close(q: nat)

  /** Program order of the transfer loop of UpdateProvider. */
  predicate Advances(c: Ctl, to: UpdatePc) {
    && c.Updating?
    && match c.upc
       case UStarting => c.left == 0 && to == UMoving
       case UMoving => to == UHolding || to == URetiring
       case UHolding => to == UMoving || to == UCancelling
       case UCancelling => to == URetiring
       case _ => false
  }

  /** Program order of requestWorkerServe; what the queue holds is checked where messages are moved. */
  predicate WorkerMoves(q: Queue, pc: WorkerPc, to: WorkerPc) {
    match pc
    case Idle => to == Serving || (to == Draining && q.done)
    case Serving => to == Idle || to == Panicked
    case Panicked => to == if q.closing then Leaving else Idle
    case Draining => to == Leaving
    case _ => false
  }

  predicate At(d: Desk, pc: UpdatePc) { d.ctl.Updating? && d.ctl.upc == pc && d.ctl.prev in d.queues }

  predicate Gets(d: Desk, pc: RemovePc) { d.ctl.Removing? && d.ctl.rpc == pc && d.ctl.gone in d.queues }

  predicate CanDesk(d: Desk, l: DeskStep) {
    match l
    case Create(q, n) => d.ctl == Free && d.route == None && q !in d.queues
    case Group => (d.ctl.Creating? && !d.ctl.grouped) || (d.ctl.Updating? && d.ctl.upc == UGrouping)
    case StartWorker(k) =>
      || (d.ctl.Creating? && d.ctl.grouped && d.ctl.left > 0 && d.ctl.q in d.queues && k !in d.queues[d.ctl.q].crew)
      || (d.ctl.Updating? && d.ctl.upc == UStarting && d.ctl.left > 0 && d.ctl.next in d.queues
          && k !in d.queues[d.ctl.next].crew)
    case Created => d.ctl.Creating? && d.ctl.grouped && d.ctl.left == 0
    case Update(q, n) => d.ctl == Free && d.route.Some? && q !in d.queues
    case Advance(to) => Advances(d.ctl, to)
    case Retire => At(d, URetiring)
    case Count => At(d, UCounting)
    case UpdateFlag => At(d, UFlagging)
    case UpdateClose => At(d, UClosing)
    case Spawn => At(d, USpawning)
    case Remove => d.ctl == Free && d.route.Some?
    case RemoveFlag => Gets(d, RFlagging)
    case RemoveClose => Gets(d, RClosing)
    case RemoveJoin => Gets(d, RJoining) && (d.group.Some? && d.group.value in d.queues ==> d.queues[d.group.value].wg == 0)
    case RemoveSwept => Gets(d, RSweeping)
    case RemoveRetired => Gets(d, RRetired) && (d.retired.Some? ==> d.retired.value == 0)
    case Unroute => Gets(d, RUnrouting)
    case Ungroup => Gets(d, RUngrouping)
    case WorkerMove(q, k, to) => q in d.queues && k in d.queues[q].crew && WorkerMoves(d.queues[q], d.queues[q].crew[k], to)
    case WorkerGone(q, k) => q in d.queues && k in d.queues[q].crew && d.queues[q].crew[k] == Leaving && d.queues[q].wg > 0
    case CleanupJoin(q) => q in d.queues && d.queues[q].phase == Waiting && d.queues[q].wg == 0
    case CleanupUnretire(q) => q in d.queues && d.queues[q].phase == Sweeping && d.retired.Some? && d.retired.value > 0
    case CleanupFinish(q) => q in d.queues && d.queues[q].phase == Unretired
    case Flag(q) => q in d.queues
    case Close(q) => q in d.queues && d.queues[q].closing
  }

  function Put(d: Desk, q: nat, x: Queue): Desk { d.(queues := d.queues[q := x]) }

  /** `wg.Add(1); go requestWorker(...)` */
  function Hire(x: Queue, k: nat): Queue { x.(wg := x.wg + 1, crew := x.crew[k := Idle]) }

  function AfterDesk(d: Desk, l: DeskStep): Desk
    requires CanDesk(d, l)
  {
    match l
    case Create(q, n) => Put(d, q, NEW_QUEUE).(route := Some(q), ctl := Creating(q, false, n))
    case Group =>
      if d.ctl.Creating? then d.(group := Some(d.ctl.q), ctl := d.ctl.(grouped := true))
      else d.(group := Some(d.ctl.next), ctl := d.ctl.(upc := UStarting))
    case StartWorker(k) =>
      var q := if d.ctl.Creating? then d.ctl.q else d.ctl.next;
      Put(d, q, Hire(d.queues[q], k)).(ctl := d.ctl.(left := d.ctl.left - 1))
    case Created => d.(ctl := Free)
    case Update(q, n) => Put(d, q, NEW_QUEUE).(route := Some(q), ctl := Updating(d.route.value, q, UGrouping, n))
    case Advance(to) => d.(ctl := d.ctl.(upc := to))
    case Retire =>
      Put(d, d.ctl.prev, d.queues[d.ctl.prev].(phase := Registered)).(
        retired := Some(1 + if d.retired.Some? then d.retired.value else 0), ctl := d.ctl.(upc := UCounting))
    case Count => Put(d, d.ctl.prev, d.queues[d.ctl.prev].(phase := Counted)).(ctl := d.ctl.(upc := UFlagging))
    case UpdateFlag => Put(d, d.ctl.prev, d.queues[d.ctl.prev].(closing := true)).(ctl := d.ctl.(upc := UClosing))
    case UpdateClose => Put(d, d.ctl.prev, d.queues[d.ctl.prev].(done := true)).(ctl := d.ctl.(upc := USpawning))
    case Spawn => Put(d, d.ctl.prev, d.queues[d.ctl.prev].(phase := Waiting)).(ctl := Free)
    case Remove => d.(ctl := Removing(d.route.value, RFlagging))
    case RemoveFlag => Put(d, d.ctl.gone, d.queues[d.ctl.gone].(closing := true)).(ctl := d.ctl.(rpc := RClosing))
    case RemoveClose => Put(d, d.ctl.gone, d.queues[d.ctl.gone].(done := true)).(ctl := d.ctl.(rpc := RJoining))
    case RemoveJoin => d.(ctl := d.ctl.(rpc := RSweeping))
    case RemoveSwept => d.(ctl := d.ctl.(rpc := RRetired))
    case RemoveRetired => d.(retired := None, ctl := d.ctl.(rpc := RUnrouting))
    case Unroute => d.(route := None, ctl := d.ctl.(rpc := RUngrouping))
    case Ungroup => d.(group := None, ctl := Free)
    case WorkerMove(q, k, to) => Put(d, q, d.queues[q].(crew := d.queues[q].crew[k := to]))
    case WorkerGone(q, k) => Put(d, q, d.queues[q].(crew := d.queues[q].crew[k := Gone], wg := d.queues[q].wg - 1))
    case CleanupJoin(q) => Put(d, q, d.queues[q].(phase := Sweeping))
    case CleanupUnretire(q) => Put(d, q, d.queues[q].(phase := Unretired)).(retired := Some(d.retired.value - 1))
    case CleanupFinish(q) => Put(d, q, d.queues[q].(phase := Finished))
    case Flag(q) => Put(d, q, d.queues[q].(closing := true))
    case Close(q) => Put(d, q, d.queues[q].(done := true))
  }

  // ----- the invariant of one desk -----

  ghost function Running(x: Queue): set<nat> {
    set k | k in x.crew && x.crew[k] != Gone
  }

  /** The wait group counts exactly the workers that have not called Done; workers leave only closed queues. */
  ghost predicate QueueOk(x: Queue) {
    && x.wg == |Running(x)|
    && (x.done ==> x.closing)
    && (forall k :: k in x.crew && x.crew[k] == Draining ==> x.done)
    && (forall k :: k in x.crew && x.crew[k] in {Leaving, Gone} ==> x.closing)
  }

  /** Workers still running are reachable by whoever removes the provider: routed, being retired, or awaited. */
  ghost predicate Placed(x: Queue, q: nat, route: Option<nat>, ctl: Ctl) {
    && (x.wg > 0 ==> route == Some(q) || (ctl.Updating? && ctl.prev == q) || x.phase == Waiting)
    && (x.phase != Active ==> route != Some(q))
    && (x.phase == Registered <==> ctl.Updating? && ctl.prev == q && ctl.upc == UCounting)
    && (x.phase == Counted <==> ctl.Updating? && ctl.prev == q && ctl.upc in {UFlagging, UClosing, USpawning})
    && (x.phase in {Waiting, Sweeping, Unretired, Finished} ==> x.done && !(ctl.Updating? && ctl.prev == q))
    && (x.phase in {Sweeping, Unretired, Finished} ==> x.wg == 0)
  }

  ghost predicate QueuesOk(d: Desk) {
    forall q :: q in d.queues ==> QueueOk(d.queues[q]) && Placed(d.queues[q], q, d.route, d.ctl)
  }

  ghost predicate CtlOk(d: Desk) {
    && (d.route.Some? ==> d.route.value in d.queues)
    && match d.ctl
       case Free => d.route == d.group
       case Creating(q, grouped, _) => d.route == Some(q) && d.group == if grouped then Some(q) else None
       case Updating(prev, next, pc, _) =>
         && prev in d.queues && prev != next && d.route == Some(next)
         && d.group == Some(if pc == UGrouping then prev else next)
         && (pc in {UClosing, USpawning} ==> d.queues[prev].closing)
         && (pc == USpawning ==> d.queues[prev].done)
       case Removing(q, pc) =>
         && q in d.queues && d.group == Some(q)
         && d.route == (if pc == RUngrouping then None else Some(q))
         && (pc in {RSweeping, RRetired, RUnrouting, RUngrouping} ==> d.queues[q].wg == 0)
         && (pc != RFlagging ==> d.queues[q].closing)
         && (pc != RFlagging && pc != RClosing ==> d.queues[q].done)
  }

  predicate IsPending(ph: Phase) { ph in {Registered, Counted, Waiting, Sweeping} }

  ghost function Pending(queues: map<nat, Queue>): set<nat> {
    set q | q in queues && IsPending(queues[q].phase)
  }

  /** The retired-workers wait group counts the cleanups that still have to call Done on it. */
  ghost predicate RetiredOk(d: Desk) {
    && (if d.retired.Some? then d.retired.value else 0) == |Pending(d.queues)|
    && (d.ctl.Removing? && d.ctl.rpc in {RUnrouting, RUngrouping} ==> Pending(d.queues) == {})
  }

  ghost predicate DeskInv(d: Desk) {
    QueuesOk(d) && CtlOk(d) && RetiredOk(d)
  }

  lemma NobodyRuns(x: Queue, k: nat)
    requires QueueOk(x) && x.wg == 0 && k in x.crew
    ensures x.crew[k] == Gone
  {
    assert k !in Running(x);
  }

  /**
   RemoveProvider: at the moment the routing entry is deleted, no worker of any generation of that
   provider, however many updates it went through, is still running.
   */
  lemma RemovalWaitsForEveryGeneration(d: Desk, q: nat, k: nat)
    requires DeskInv(d) && CanDesk(d, Unroute)
    requires q in d.queues && k in d.queues[q].crew
    ensures d.queues[q].crew[k] == Gone
  {
    assert QueueOk(d.queues[q]) && Placed(d.queues[q], q, d.route, d.ctl);
    assert q !in Pending(d.queues);
    NobodyRuns(d.queues[q], k);
  }

  // ----- every step keeps it -----

  lemma QueueKept(x: Queue, y: Queue)
    requires QueueOk(x) && y.wg == x.wg && y.crew == x.crew && (x.closing ==> y.closing) && (x.done ==> y.done)
    requires y.done ==> y.closing
    ensures QueueOk(y)
  {
    assert Running(y) == Running(x);
  }

  lemma CrewKept(x: Queue, k: nat, to: WorkerPc)
    requires QueueOk(x) && k in x.crew && WorkerMoves(x, x.crew[k], to)
    ensures QueueOk(x.(crew := x.crew[k := to]))
  {
    assert Running(x.(crew := x.crew[k := to])) == Running(x);
  }

  lemma CrewShrinks(x: Queue, k: nat)
    requires QueueOk(x) && k in x.crew && x.crew[k] == Leaving && x.wg > 0
    ensures QueueOk(x.(crew := x.crew[k := Gone], wg := x.wg - 1))
  {
    assert Running(x.(crew := x.crew[k := Gone], wg := x.wg - 1)) == Running(x) - {k};
  }

  lemma CrewGrows(x: Queue, k: nat)
    requires QueueOk(x) && k !in x.crew
    ensures QueueOk(Hire(x, k))
  {
    assert Running(Hire(x, k)) == Running(x) + {k};
  }

  lemma NewQueueOk()
    ensures QueueOk(NEW_QUEUE)
  {
    assert Running(NEW_QUEUE) == {};
  }

  lemma PatchCtl(d: Desk, q: nat, y: Queue)
    requires CtlOk(d) && q in d.queues
    requires (d.queues[q].closing ==> y.closing) && (d.queues[q].done ==> y.done) && (d.queues[q].wg == 0 ==> y.wg == 0)
    ensures CtlOk(Put(d, q, y))
  {
  }

  lemma PatchQueues(d: Desk, q: nat, y: Queue)
    requires QueuesOk(d) && QueueOk(y) && Placed(y, q, d.route, d.ctl)
    ensures QueuesOk(Put(d, q, y))
  {
    hide QueueOk, Placed;
  }

  lemma PatchRetired(d: Desk, q: nat, y: Queue)
    requires RetiredOk(d) && q in d.queues && IsPending(d.queues[q].phase) == IsPending(y.phase)
    ensures RetiredOk(Put(d, q, y))
  {
    assert Pending(Put(d, q, y).queues) == Pending(d.queues);
  }

  /** Replacing one queue's record, the controller staying where it is. */
  lemma PatchKeeps(d: Desk, q: nat, y: Queue)
    requires DeskInv(d) && q in d.queues && QueueOk(y) && Placed(y, q, d.route, d.ctl)
    requires (d.queues[q].closing ==> y.closing) && (d.queues[q].done ==> y.done) && (d.queues[q].wg == 0 ==> y.wg == 0)
    requires IsPending(d.queues[q].phase) == IsPending(y.phase)
    ensures DeskInv(Put(d, q, y))
  {
    hide CtlOk, QueuesOk, RetiredOk, QueueOk, Placed;
    PatchCtl(d, q, y);
    PatchQueues(d, q, y);
    PatchRetired(d, q, y);
  }

  lemma RetiredGrows(d: Desk, d': Desk, q: nat)
    requires RetiredOk(d) && q in d.queues && !IsPending(d.queues[q].phase) && d'.ctl.Updating?
    requires d'.queues == d.queues[q := d.queues[q].(phase := Registered)]
    requires d'.retired == Some(1 + if d.retired.Some? then d.retired.value else 0)
    ensures RetiredOk(d')
  {
    assert Pending(d'.queues) == Pending(d.queues) + {q};
  }

  lemma RetiredShrinks(d: Desk, d': Desk, q: nat)
    requires RetiredOk(d) && q in d.queues && d.queues[q].phase == Sweeping && d.retired.Some? && d.retired.value > 0
    requires d'.queues == d.queues[q := d.queues[q].(phase := Unretired)] && d'.ctl == d.ctl
    requires d'.retired == Some(d.retired.value - 1)
    ensures RetiredOk(d')
  {
    assert Pending(d'.queues) == Pending(d.queues) - {q};
  }

  lemma CreateKeeps(d: Desk, q: nat, n: nat)
    requires DeskInv(d) && CanDesk(d, Create(q, n))
    ensures DeskInv(AfterDesk(d, Create(q, n)))
  {
    NewQueueOk();
    assert Pending(AfterDesk(d, Create(q, n)).queues) == Pending(d.queues);
  }

  lemma GroupKeeps(d: Desk)
    requires DeskInv(d) && CanDesk(d, Group)
    ensures DeskInv(AfterDesk(d, Group))
  {
  }

  lemma StartWorkerKeeps(d: Desk, k: nat)
    requires DeskInv(d) && CanDesk(d, StartWorker(k))
    ensures DeskInv(AfterDesk(d, StartWorker(k)))
  {
    hide QueueOk;
    var q := if d.ctl.Creating? then d.ctl.q else d.ctl.next;
    CrewGrows(d.queues[q], k);
    assert Pending(AfterDesk(d, StartWorker(k)).queues) == Pending(d.queues);
  }

  lemma CreatedKeeps(d: Desk)
    requires DeskInv(d) && CanDesk(d, Created)
    ensures DeskInv(AfterDesk(d, Created))
  {
  }

  lemma UpdateKeeps(d: Desk, q: nat, n: nat)
    requires DeskInv(d) && CanDesk(d, Update(q, n))
    ensures DeskInv(AfterDesk(d, Update(q, n)))
  {
    NewQueueOk();
    assert Pending(AfterDesk(d, Update(q, n)).queues) == Pending(d.queues);
  }

  lemma AdvanceKeeps(d: Desk, to: UpdatePc)
    requires DeskInv(d) && CanDesk(d, Advance(to))
    ensures DeskInv(AfterDesk(d, Advance(to)))
  {
  }

  lemma RetireKeeps(d: Desk)
    requires DeskInv(d) && CanDesk(d, Retire)
    ensures DeskInv(AfterDesk(d, Retire))
  {
    hide RetiredOk;
    QueueKept(d.queues[d.ctl.prev], AfterDesk(d, Retire).queues[d.ctl.prev]);
    RetiredGrows(d, AfterDesk(d, Retire), d.ctl.prev);
  }

  lemma CountKeeps(d: Desk)
    requires DeskInv(d) && CanDesk(d, Count)
    ensures DeskInv(AfterDesk(d, Count))
  {
    QueueKept(d.queues[d.ctl.prev], AfterDesk(d, Count).queues[d.ctl.prev]);
    assert Pending(AfterDesk(d, Count).queues) == Pending(d.queues);
  }

  lemma UpdateFlagKeeps(d: Desk)
    requires DeskInv(d) && CanDesk(d, UpdateFlag)
    ensures DeskInv(AfterDesk(d, UpdateFlag))
  {
    QueueKept(d.queues[d.ctl.prev], AfterDesk(d, UpdateFlag).queues[d.ctl.prev]);
    assert Pending(AfterDesk(d, UpdateFlag).queues) == Pending(d.queues);
  }

  lemma UpdateCloseKeeps(d: Desk)
    requires DeskInv(d) && CanDesk(d, UpdateClose)
    ensures DeskInv(AfterDesk(d, UpdateClose))
  {
    QueueKept(d.queues[d.ctl.prev], AfterDesk(d, UpdateClose).queues[d.ctl.prev]);
    assert Pending(AfterDesk(d, UpdateClose).queues) == Pending(d.queues);
  }

  lemma SpawnKeeps(d: Desk)
    requires DeskInv(d) && CanDesk(d, Spawn)
    ensures DeskInv(AfterDesk(d, Spawn))
  {
    QueueKept(d.queues[d.ctl.prev], AfterDesk(d, Spawn).queues[d.ctl.prev]);
    assert Pending(AfterDesk(d, Spawn).queues) == Pending(d.queues);
  }

  lemma RemoveKeeps(d: Desk)
    requires DeskInv(d) && CanDesk(d, Remove)
    ensures DeskInv(AfterDesk(d, Remove))
  {
  }

  lemma RemoveFlagKeeps(d: Desk)
    requires DeskInv(d) && CanDesk(d, RemoveFlag)
    ensures DeskInv(AfterDesk(d, RemoveFlag))
  {
    QueueKept(d.queues[d.ctl.gone], AfterDesk(d, RemoveFlag).queues[d.ctl.gone]);
    assert Pending(AfterDesk(d, RemoveFlag).queues) == Pending(d.queues);
  }

  lemma RemoveCloseKeeps(d: Desk)
    requires DeskInv(d) && CanDesk(d, RemoveClose)
    ensures DeskInv(AfterDesk(d, RemoveClose))
  {
    QueueKept(d.queues[d.ctl.gone], AfterDesk(d, RemoveClose).queues[d.ctl.gone]);
    assert Pending(AfterDesk(d, RemoveClose).queues) == Pending(d.queues);
  }

  lemma RemoveJoinKeeps(d: Desk)
    requires DeskInv(d) && CanDesk(d, RemoveJoin)
    ensures DeskInv(AfterDesk(d, RemoveJoin))
  {
  }

  lemma RemoveSweptKeeps(d: Desk)
    requires DeskInv(d) && CanDesk(d, RemoveSwept)
    ensures DeskInv(AfterDesk(d, RemoveSwept))
  {
  }

  lemma RemoveRetiredKeeps(d: Desk)
    requires DeskInv(d) && CanDesk(d, RemoveRetired)
    ensures DeskInv(AfterDesk(d, RemoveRetired))
  {
  }

  lemma UnrouteKeeps(d: Desk)
    requires DeskInv(d) && CanDesk(d, Unroute)
    ensures DeskInv(AfterDesk(d, Unroute))
  {
  }

  lemma UngroupKeeps(d: Desk)
    requires DeskInv(d) && CanDesk(d, Ungroup)
    ensures DeskInv(AfterDesk(d, Ungroup))
  {
  }

  lemma WorkerMoveKeeps(d: Desk, q: nat, k: nat, to: WorkerPc)
    requires DeskInv(d) && CanDesk(d, WorkerMove(q, k, to))
    ensures DeskInv(AfterDesk(d, WorkerMove(q, k, to)))
  {
    hide CtlOk, RetiredOk;
    CrewKept(d.queues[q], k, to);
    PatchKeeps(d, q, AfterDesk(d, WorkerMove(q, k, to)).queues[q]);
  }

  lemma WorkerGoneKeeps(d: Desk, q: nat, k: nat)
    requires DeskInv(d) && CanDesk(d, WorkerGone(q, k))
    ensures DeskInv(AfterDesk(d, WorkerGone(q, k)))
  {
    hide CtlOk, RetiredOk;
    CrewShrinks(d.queues[q], k);
    PatchKeeps(d, q, AfterDesk(d, WorkerGone(q, k)).queues[q]);
  }

  lemma CleanupJoinKeeps(d: Desk, q: nat)
    requires DeskInv(d) && CanDesk(d, CleanupJoin(q))
    ensures DeskInv(AfterDesk(d, CleanupJoin(q)))
  {
    hide CtlOk, RetiredOk;
    var y := AfterDesk(d, CleanupJoin(q)).queues[q];
    QueueKept(d.queues[q], y);
    PatchKeeps(d, q, y);
  }

  lemma CleanupFinishKeeps(d: Desk, q: nat)
    requires DeskInv(d) && CanDesk(d, CleanupFinish(q))
    ensures DeskInv(AfterDesk(d, CleanupFinish(q)))
  {
    hide CtlOk, RetiredOk;
    var y := AfterDesk(d, CleanupFinish(q)).queues[q];
    QueueKept(d.queues[q], y);
    PatchKeeps(d, q, y);
  }

  lemma FlagKeeps(d: Desk, q: nat)
    requires DeskInv(d) && CanDesk(d, Flag(q))
    ensures DeskInv(AfterDesk(d, Flag(q)))
  {
    hide CtlOk, RetiredOk;
    var y := AfterDesk(d, Flag(q)).queues[q];
    QueueKept(d.queues[q], y);
    PatchKeeps(d, q, y);
  }

  lemma CloseKeeps(d: Desk, q: nat)
    requires DeskInv(d) && CanDesk(d, Close(q))
    ensures DeskInv(AfterDesk(d, Close(q)))
  {
    hide CtlOk, RetiredOk;
    var y := AfterDesk(d, Close(q)).queues[q];
    QueueKept(d.queues[q], y);
    PatchKeeps(d, q, y);
  }

  lemma CleanupUnretireKeeps(d: Desk, q: nat)
    requires DeskInv(d) && CanDesk(d, CleanupUnretire(q))
    ensures DeskInv(AfterDesk(d, CleanupUnretire(q)))
  {
    hide RetiredOk;
    QueueKept(d.queues[q], AfterDesk(d, CleanupUnretire(q)).queues[q]);
    RetiredShrinks(d, AfterDesk(d, CleanupUnretire(q)), q);
  }

  lemma DeskKept(d: Desk, l: DeskStep)
    requires DeskInv(d) && CanDesk(d, l)
    ensures DeskInv(AfterDesk(d, l))
  {
    hide DeskInv, CanDesk, AfterDesk;
    match l
    case Create(q, n) => CreateKeeps(d, q, n);
    case Group => GroupKeeps(d);
    case StartWorker(k) => StartWorkerKeeps(d, k);
    case Created => CreatedKeeps(d);
    case Update(q, n) => UpdateKeeps(d, q, n);
    case Advance(to) => AdvanceKeeps(d, to);
    case Retire => RetireKeeps(d);
    case Count => CountKeeps(d);
    case UpdateFlag => UpdateFlagKeeps(d);
    case UpdateClose => UpdateCloseKeeps(d);
    case Spawn => SpawnKeeps(d);
    case Remove => RemoveKeeps(d);
    case RemoveFlag => RemoveFlagKeeps(d);
    case RemoveClose => RemoveCloseKeeps(d);
    case RemoveJoin => RemoveJoinKeeps(d);
    case RemoveSwept => RemoveSweptKeeps(d);
    case RemoveRetired => RemoveRetiredKeeps(d);
    case Unroute => UnrouteKeeps(d);
    case Ungroup => UngroupKeeps(d);
    case WorkerMove(q, k, to) => WorkerMoveKeeps(d, q, k, to);
    case WorkerGone(q, k) => WorkerGoneKeeps(d, q, k);
    case CleanupJoin(q) => CleanupJoinKeeps(d, q);
    case CleanupUnretire(q) => CleanupUnretireKeeps(d, q);
    case CleanupFinish(q) => CleanupFinishKeeps(d, q);
    case Flag(q) => FlagKeeps(d, q);
    case Close(q) => CloseKeeps(d, q);
  }

  // ----- all providers and Shutdown -----

  datatype Shutdown =
    | SNotStarted
    | SSignalling(seen: set<Provider>, cur: Option<QId>)
    | SJoining(seen: set<Provider>)
    | SAwaiting
    | SSweeping(seen: set<Provider>)
    | SComplete

  /**
   `cleanupCount` is oldWorkerCleanups. `lateCreate` is auxiliary: some provider was being created
   while Shutdown ran.
   */
  datatype Life = Life(desks: map<Provider, Desk>, cleanupCount: nat, shutdown: Shutdown, lateCreate: bool)

  const INITIAL_LIFE := Life(map[], 0, SNotStarted, false)

  datatype LifeStep =
    | OnDesk(p: Provider, l: DeskStep)
    | ShutBegin | ShutFlag(p: Provider) | ShutClose | ShutSignalled
    | ShutJoin(p: Provider) | ShutJoined | ShutCleanups
    | ShutSweep(p: Provider) | ShutFinish

  function DeskOf(lf: Life, p: Provider): Desk {
    if p in lf.desks then lf.desks[p] else EMPTY_DESK
  }

  predicate Started(lf: Life) { lf.shutdown != SNotStarted }

  predicate IsRouted(lf: Life, p: Provider) {
    p in lf.desks && lf.desks[p].route.Some? && lf.desks[p].route.value in lf.desks[p].queues
  }

  predicate IsGrouped(lf: Life, p: Provider) {
    p in lf.desks && lf.desks[p].group.Some? && lf.desks[p].group.value in lf.desks[p].queues
  }

  predicate IsQueue(lf: Life, q: QId) {
    q.p in lf.desks && q.n in lf.desks[q.p].queues
  }

  function QueueOf(lf: Life, q: QId): Queue
    requires IsQueue(lf, q)
  {
    lf.desks[q.p].queues[q.n]
  }

  /**
   UpdateProvider holds the lifecycle lock for reading, Shutdown for writing. A Range over a map
   visits every key that stays in it; keys deleted meanwhile may be skipped.
   */
  ghost predicate CanLife(lf: Life, l: LifeStep) {
    match l
    case OnDesk(p, s) =>
      && CanDesk(DeskOf(lf, p), s) && !s.Flag? && !s.Close?
      && (s.Update? ==> !Started(lf))
      && (s.CleanupFinish? ==> lf.cleanupCount > 0)
    case ShutBegin => !Started(lf) && forall p :: p in lf.desks ==> !lf.desks[p].ctl.Updating?
    case ShutFlag(p) => lf.shutdown.SSignalling? && lf.shutdown.cur == None && IsRouted(lf, p) && p !in lf.shutdown.seen
    case ShutClose =>
      && lf.shutdown.SSignalling? && lf.shutdown.cur.Some? && IsQueue(lf, lf.shutdown.cur.value)
      && QueueOf(lf, lf.shutdown.cur.value).closing
    case ShutSignalled =>
      lf.shutdown.SSignalling? && lf.shutdown.cur == None && forall p :: IsRouted(lf, p) ==> p in lf.shutdown.seen
    case ShutJoin(p) =>
      lf.shutdown.SJoining? && IsGrouped(lf, p) && p !in lf.shutdown.seen && lf.desks[p].queues[lf.desks[p].group.value].wg == 0
    case ShutJoined => lf.shutdown.SJoining? && forall p :: IsGrouped(lf, p) ==> p in lf.shutdown.seen
    case ShutCleanups => lf.shutdown.SAwaiting? && lf.cleanupCount == 0
    case ShutSweep(p) => lf.shutdown.SSweeping? && IsRouted(lf, p) && p !in lf.shutdown.seen
    case ShutFinish => lf.shutdown.SSweeping? && forall p :: IsRouted(lf, p) ==> p in lf.shutdown.seen
  }

  function OnDeskResult(lf: Life, p: Provider, s: DeskStep): Life
    requires CanDesk(DeskOf(lf, p), s) && (s.CleanupFinish? ==> lf.cleanupCount > 0)
  {
    Life(lf.desks[p := AfterDesk(DeskOf(lf, p), s)],
         if s.Count? then lf.cleanupCount + 1 else if s.CleanupFinish? then lf.cleanupCount - 1 else lf.cleanupCount,
         lf.shutdown,
         lf.lateCreate || (s.Create? && Started(lf)))
  }

  function SignalDesk(lf: Life, q: QId, s: DeskStep): Life
    requires IsQueue(lf, q) && CanDesk(lf.desks[q.p], s)
  {
    lf.(desks := lf.desks[q.p := AfterDesk(lf.desks[q.p], s)])
  }

  ghost function AfterLife(lf: Life, l: LifeStep): Life
    requires CanLife(lf, l)
  {
    match l
    case OnDesk(p, s) => OnDeskResult(lf, p, s)
    case ShutBegin =>
      lf.(shutdown := SSignalling({}, None),
          lateCreate := lf.lateCreate || exists p :: p in lf.desks && lf.desks[p].ctl.Creating?)
    case ShutFlag(p) =>
      var q := QId(p, lf.desks[p].route.value);
      SignalDesk(lf, q, Flag(q.n)).(shutdown := SSignalling(lf.shutdown.seen + {p}, Some(q)))
    case ShutClose =>
      var q := lf.shutdown.cur.value;
      SignalDesk(lf, q, Close(q.n)).(shutdown := SSignalling(lf.shutdown.seen, None))
    case ShutSignalled => lf.(shutdown := SJoining({}))
    case ShutJoin(p) => lf.(shutdown := SJoining(lf.shutdown.seen + {p}))
    case ShutJoined => lf.(shutdown := SAwaiting)
    case ShutCleanups => lf.(shutdown := SSweeping({}))
    case ShutSweep(p) => lf.(shutdown := SSweeping(lf.shutdown.seen + {p}))
    case ShutFinish => lf.(shutdown := SComplete)
  }

  ghost predicate DesksOk(desks: map<Provider, Desk>) {
    forall p :: p in desks ==> DeskInv(desks[p])
  }

  predicate IsCounted(ph: Phase) { ph in {Counted, Waiting, Sweeping, Unretired} }

  ghost function CountedSet(desks: map<Provider, Desk>): set<QId> {
    set p, q | p in desks && q in desks[p].queues && IsCounted(desks[p].queues[q].phase) :: QId(p, q)
  }

  /** oldWorkerCleanups counts the cleanups, of all providers, that still have to finish. */
  ghost predicate CountOk(lf: Life) {
    lf.cleanupCount == |CountedSet(lf.desks)|
  }

  /** Steps of an update before it signals the old queue. */
  predicate IsTransfer(pc: UpdatePc) { pc !in {UClosing, USpawning} }

  /**
   Before Shutdown, a routed queue nobody is removing is open, and so is one being replaced until the
   update signals it; no update runs beside Shutdown.
   */
  ghost predicate OpenDesk(d: Desk, started: bool) {
    && (!started && d.route.Some? && d.route.value in d.queues && !d.ctl.Removing? ==> !d.queues[d.route.value].closing)
    && (d.ctl.Updating? ==> !started)
    && (d.ctl.Updating? && d.ctl.prev in d.queues && IsTransfer(d.ctl.upc) ==> !d.queues[d.ctl.prev].closing)
  }

  ghost predicate OpenOk(lf: Life) {
    && (forall p :: p in lf.desks ==> OpenDesk(lf.desks[p], Started(lf)))
    && (lf.shutdown.SSignalling? && lf.shutdown.cur.Some? ==>
          IsQueue(lf, lf.shutdown.cur.value) && QueueOf(lf, lf.shutdown.cur.value).closing)
  }

  ghost predicate Silent(d: Desk) {
    forall q :: q in d.queues ==> d.queues[q].wg == 0
  }

  ghost predicate GroupSilent(d: Desk) {
    d.group.Some? && d.group.value in d.queues ==> d.queues[d.group.value].wg == 0
  }

  /** What Shutdown has established for one provider, when no provider is created beside it. */
  ghost predicate Quieting(d: Desk, p: Provider, sh: Shutdown) {
    && !d.ctl.Updating? && !d.ctl.Creating?
    && (sh.SJoining? && p in sh.seen ==> GroupSilent(d))
    && (sh.SAwaiting? ==> GroupSilent(d))
    && (sh.SSweeping? || sh.SComplete? ==> Silent(d))
  }

  ghost predicate QuietingOk(lf: Life) {
    Started(lf) && !lf.lateCreate ==> forall p :: p in lf.desks ==> Quieting(lf.desks[p], p, lf.shutdown)
  }

  ghost predicate LifeInv(lf: Life) {
    DesksOk(lf.desks) && CountOk(lf) && OpenOk(lf) && QuietingOk(lf)
  }

  lemma InitialLifeOk()
    ensures LifeInv(INITIAL_LIFE)
  {
    assert CountedSet(INITIAL_LIFE.desks) == {};
  }

  /** When Shutdown has finished waiting, no worker of any provider runs, unless one was created meanwhile. */
  lemma ShutdownWaitsForEveryWorker(lf: Life, q: QId, k: nat)
    requires LifeInv(lf) && (lf.shutdown.SSweeping? || lf.shutdown.SComplete?) && !lf.lateCreate
    requires IsQueue(lf, q) && k in QueueOf(lf, q).crew
    ensures QueueOf(lf, q).crew[k] == Gone
  {
    var d := lf.desks[q.p];
    assert DeskInv(d) && Quieting(d, q.p, lf.shutdown);
    NobodyRuns(d.queues[q.n], k);
  }

  lemma EmptyDeskOk()
    ensures DeskInv(EMPTY_DESK)
  {
    assert Pending(EMPTY_DESK.queues) == {};
  }

  lemma DesksKept(lf: Life, l: LifeStep)
    requires DesksOk(lf.desks) && CanLife(lf, l)
    ensures DesksOk(AfterLife(lf, l).desks)
  {
    hide DeskInv, CanDesk, AfterDesk;
    match l {
      case OnDesk(p, s) =>
        EmptyDeskOk();
        DeskKept(DeskOf(lf, p), s);
      case ShutFlag(p) =>
        CanFlag(lf.desks[p], lf.desks[p].route.value);
        DeskKept(lf.desks[p], Flag(lf.desks[p].route.value));
      case ShutClose =>
        var q := lf.shutdown.cur.value;
        CanFlag(lf.desks[q.p], q.n);
        DeskKept(lf.desks[q.p], Close(q.n));
      case _ =>
    }
  }

  lemma CanFlag(d: Desk, q: nat)
    requires q in d.queues
    ensures CanDesk(d, Flag(q))
    ensures d.queues[q].closing ==> CanDesk(d, Close(q))
  {
  }

  /** Only Count and CleanupFinish change which queues the global cleanup counter stands for. */
  lemma CountedStatus(d: Desk, l: DeskStep, q: nat)
    requires CanDesk(d, l) && q in AfterDesk(d, l).queues
    requires d.ctl.Updating? && d.ctl.prev in d.queues ==> Placed(d.queues[d.ctl.prev], d.ctl.prev, d.route, d.ctl)
    ensures IsCounted(AfterDesk(d, l).queues[q].phase) <==>
            (if l.Count? && q == d.ctl.prev then true
             else if l.CleanupFinish? && q == l.q then false
             else q in d.queues && IsCounted(d.queues[q].phase))
  {
  }

  lemma CountedBefore(d: Desk, l: DeskStep)
    requires CanDesk(d, l) && QueuesOk(d)
    ensures l.Count? ==> d.ctl.Updating? && d.ctl.prev in d.queues && !IsCounted(d.queues[d.ctl.prev].phase)
    ensures l.CleanupFinish? ==> l.q in d.queues && IsCounted(d.queues[l.q].phase)
    ensures d.ctl.Updating? && d.ctl.prev in d.queues ==> Placed(d.queues[d.ctl.prev], d.ctl.prev, d.route, d.ctl)
    ensures forall q :: q in d.queues ==> q in AfterDesk(d, l).queues
  {
    assert l.Count? ==> Placed(d.queues[d.ctl.prev], d.ctl.prev, d.route, d.ctl);
  }

  ghost function CountedIn(d: Desk): set<nat> {
    set q | q in d.queues && IsCounted(d.queues[q].phase)
  }

  lemma CountedSetFrame(desks: map<Provider, Desk>, p: Provider, d: Desk, d': Desk)
    requires d == if p in desks then desks[p] else EMPTY_DESK
    ensures CountedIn(d') == CountedIn(d) ==> CountedSet(desks[p := d']) == CountedSet(desks)
    ensures forall x :: x !in CountedIn(d) && CountedIn(d') == CountedIn(d) + {x} ==>
              QId(p, x) !in CountedSet(desks) && CountedSet(desks[p := d']) == CountedSet(desks) + {QId(p, x)}
    ensures forall x :: x in CountedIn(d) && CountedIn(d') == CountedIn(d) - {x} ==>
              QId(p, x) in CountedSet(desks) && CountedSet(desks[p := d']) == CountedSet(desks) - {QId(p, x)}
  {
    var was, now := CountedSet(desks), CountedSet(desks[p := d']);
    assert forall x :: QId(p, x) in was <==> x in CountedIn(d);
    assert forall x :: QId(p, x) in now <==> x in CountedIn(d');
    assert forall q: QId :: q.p != p ==> (q in was <==> q in now);
    assert forall q: QId :: q.p == p ==> q == QId(p, q.n);
  }

  lemma CountedInStep(d: Desk, l: DeskStep)
    requires CanDesk(d, l) && QueuesOk(d)
    ensures var now := CountedIn(AfterDesk(d, l));
            if l.Count? then d.ctl.Updating? && d.ctl.prev !in CountedIn(d) && now == CountedIn(d) + {d.ctl.prev}
            else if l.CleanupFinish? then l.q in CountedIn(d) && now == CountedIn(d) - {l.q}
            else now == CountedIn(d)
  {
    hide CanDesk, AfterDesk, Placed, QueuesOk;
    CountedBefore(d, l);
    forall q | q in AfterDesk(d, l).queues
      ensures IsCounted(AfterDesk(d, l).queues[q].phase) <==>
              (if l.Count? && q == d.ctl.prev then true
               else if l.CleanupFinish? && q == l.q then false
               else q in d.queues && IsCounted(d.queues[q].phase))
    {
      CountedStatus(d, l, q);
    }
  }

  lemma CountStep(lf: Life, p: Provider, s: DeskStep)
    requires DesksOk(lf.desks) && CanLife(lf, OnDesk(p, s)) && CountOk(lf)
    ensures CountOk(AfterLife(lf, OnDesk(p, s)))
  {
    hide CanDesk, AfterDesk, CtlOk, RetiredOk, QueuesOk, CountedSet, CountedIn;
    EmptyDeskOk();
    CountedInStep(DeskOf(lf, p), s);
    CountedSetFrame(lf.desks, p, DeskOf(lf, p), AfterDesk(DeskOf(lf, p), s));
  }

  lemma CountShut(lf: Life, q: QId, s: DeskStep)
    requires DesksOk(lf.desks) && IsQueue(lf, q) && CanDesk(lf.desks[q.p], s) && (s.Flag? || s.Close?) && CountOk(lf)
    ensures CountOk(SignalDesk(lf, q, s))
  {
    hide CanDesk, AfterDesk, CtlOk, RetiredOk, QueuesOk, CountedSet, CountedIn;
    assert DeskInv(lf.desks[q.p]);
    CountedInStep(lf.desks[q.p], s);
    CountedSetFrame(lf.desks, q.p, lf.desks[q.p], AfterDesk(lf.desks[q.p], s));
  }

  lemma CountKept(lf: Life, l: LifeStep)
    requires DesksOk(lf.desks) && CanLife(lf, l) && CountOk(lf)
    ensures CountOk(AfterLife(lf, l))
  {
    hide CanDesk, AfterDesk, DesksOk, CountedSet;
    match l {
      case OnDesk(p, s) => CountStep(lf, p, s);
      case ShutFlag(p) =>
        CanFlag(lf.desks[p], lf.desks[p].route.value);
        CountShut(lf, QId(p, lf.desks[p].route.value), Flag(lf.desks[p].route.value));
      case ShutClose =>
        CanFlag(lf.desks[lf.shutdown.cur.value.p], lf.shutdown.cur.value.n);
        CountShut(lf, lf.shutdown.cur.value, Close(lf.shutdown.cur.value.n));
      case _ =>
    }
  }

  lemma OpenDeskKept(d: Desk, s: DeskStep, started: bool)
    requires CanDesk(d, s) && CtlOk(d) && OpenDesk(d, started) && (s.Update? ==> !started) && !s.Flag? && !s.Close?
    ensures OpenDesk(AfterDesk(d, s), started)
  {
  }

  lemma QueuesRemain(d: Desk, s: DeskStep, q: nat)
    requires CanDesk(d, s) && q in d.queues
    ensures q in AfterDesk(d, s).queues && (d.queues[q].closing ==> AfterDesk(d, s).queues[q].closing)
    ensures d.queues[q].done ==> AfterDesk(d, s).queues[q].done
  {
  }

  lemma OpenKept(lf: Life, l: LifeStep)
    requires DesksOk(lf.desks) && CanLife(lf, l) && OpenOk(lf)
    ensures OpenOk(AfterLife(lf, l))
  {
    hide CanDesk, AfterDesk, CtlOk, RetiredOk, QueuesOk;
    match l {
      case OnDesk(p, s) =>
        EmptyDeskOk();
        OpenDeskKept(DeskOf(lf, p), s, Started(lf));
        if lf.shutdown.SSignalling? && lf.shutdown.cur.Some? && lf.shutdown.cur.value.p == p {
          QueuesRemain(DeskOf(lf, p), s, lf.shutdown.cur.value.n);
        }
      case ShutFlag(p) =>
        CanFlag(lf.desks[p], lf.desks[p].route.value);
        SignalEffect(lf.desks[p], lf.desks[p].route.value);
      case ShutClose =>
        CanFlag(lf.desks[lf.shutdown.cur.value.p], lf.shutdown.cur.value.n);
        SignalEffect(lf.desks[lf.shutdown.cur.value.p], lf.shutdown.cur.value.n);
      case _ =>
    }
  }

  lemma SignalEffect(d: Desk, q: nat)
    requires q in d.queues
    ensures CanDesk(d, Flag(q)) && AfterDesk(d, Flag(q)) == Put(d, q, d.queues[q].(closing := true))
    ensures d.queues[q].closing ==> CanDesk(d, Close(q)) && AfterDesk(d, Close(q)) == Put(d, q, d.queues[q].(done := true))
  {
  }

  lemma QuietingStep(d: Desk, p: Provider, s: DeskStep, sh: Shutdown)
    requires CanDesk(d, s) && CtlOk(d) && Quieting(d, p, sh) && !s.Update? && !s.Create?
    ensures Quieting(AfterDesk(d, s), p, sh)
  {
  }

  /** Once the cleanups are done and the current generations have stopped, nothing runs at a desk. */
  lemma SilentWhenUncounted(lf: Life, p: Provider)
    requires p in lf.desks && DeskInv(lf.desks[p]) && Quieting(lf.desks[p], p, SAwaiting)
    requires CountedSet(lf.desks) == {}
    ensures Silent(lf.desks[p])
  {
    var d := lf.desks[p];
    forall q | q in d.queues ensures d.queues[q].wg == 0 {
      assert QId(p, q) !in CountedSet(lf.desks);
      assert Placed(d.queues[q], q, d.route, d.ctl);
    }
  }

  lemma QuietingKept(lf: Life, l: LifeStep)
    requires LifeInv(lf) && CanLife(lf, l)
    ensures QuietingOk(AfterLife(lf, l))
  {
    hide CanDesk, AfterDesk, CtlOk, RetiredOk, QueuesOk;
    match l {
      case OnDesk(p, s) =>
        if Started(lf) && !lf.lateCreate && !s.Create? {
          EmptyDeskOk();
          QuietingStep(DeskOf(lf, p), p, s, lf.shutdown);
        }
      case ShutBegin =>
      case ShutFlag(p) =>
        SignalEffect(lf.desks[p], lf.desks[p].route.value);
      case ShutClose =>
        SignalEffect(lf.desks[lf.shutdown.cur.value.p], lf.shutdown.cur.value.n);
      case ShutSignalled =>
      case ShutJoin(p) =>
      case ShutJoined =>
      case ShutCleanups =>
        if !lf.lateCreate {
          forall p | p in lf.desks ensures Silent(lf.desks[p]) {
            SilentWhenUncounted(lf, p);
          }
        }
      case _ =>
    }
  }

  lemma LifeKept(lf: Life, l: LifeStep)
    requires LifeInv(lf) && CanLife(lf, l)
    ensures LifeInv(AfterLife(lf, l))
  {
    hide CanLife, AfterLife, DesksOk, CountOk, OpenOk, QuietingOk;
    DesksKept(lf, l);
    CountKept(lf, l);
    OpenKept(lf, l);
    QuietingKept(lf, l);
  }

  // ----- what a control step leaves alone -----

  /** What the goroutine `h` does with messages of a queue, read off the control side. */
  datatype Duty = NoDuty | Carries(q: QId) | Sweeps(q: QId)

  function WorkerDuty(lf: Life, w: WId): Duty {
    if IsQueue(lf, w.q) && w.k in QueueOf(lf, w.q).crew then
      match QueueOf(lf, w.q).crew[w.k]
      case Serving => Carries(w.q)
      case Draining => Sweeps(w.q)
      case _ => NoDuty
    else NoDuty
  }

  function CtlDuty(c: Ctl, p: Provider): Duty {
    match c
    case Updating(prev, _, UHolding, _) => Carries(QId(p, prev))
    case Updating(prev, _, UCancelling, _) => Sweeps(QId(p, prev))
    case Removing(q, RSweeping) => Sweeps(QId(p, q))
    case _ => NoDuty
  }

  function DutyOf(lf: Life, h: Holder): Duty {
    match h
    case ByWorker(w) => WorkerDuty(lf, w)
    case ByController(p) => CtlDuty(DeskOf(lf, p).ctl, p)
    case ByCleanup(q) => if IsQueue(lf, q) && QueueOf(lf, q).phase == Sweeping then Sweeps(q) else NoDuty
    case _ => NoDuty
  }

  /** The queue a signalling step flags. */
  function SignalTarget(lf: Life, ll: LifeStep): Option<QId> {
    match ll
    case ShutFlag(p) => if IsRouted(lf, p) then Some(QId(p, lf.desks[p].route.value)) else None
    case OnDesk(p, UpdateFlag) => if DeskOf(lf, p).ctl.Updating? then Some(QId(p, DeskOf(lf, p).ctl.prev)) else None
    case OnDesk(p, RemoveFlag) => if DeskOf(lf, p).ctl.Removing? then Some(QId(p, DeskOf(lf, p).ctl.gone)) else None
    case _ => None
  }

  /** Steps of the control side that touch neither messages nor drain loops. */
  predicate IsPlain(lf: Life, ll: LifeStep) {
    match ll
    case OnDesk(p, l) =>
      || l.Group? || l.StartWorker? || l.Created? || l.Retire? || l.Count? || l.UpdateClose? || l.Spawn?
      || l.Remove? || l.RemoveClose? || l.RemoveRetired? || l.Unroute? || l.Ungroup? || l.WorkerGone? || l.CleanupFinish?
      || (l == Advance(UMoving) && DeskOf(lf, p).ctl.Updating? && DeskOf(lf, p).ctl.upc == UStarting)
    case ShutFlag(_) => false
    case ShutSweep(_) => false
    case ShutFinish => false
    case _ => true
  }

  /** Past this point no worker of `q` runs or will be started. */
  predicate Unstaffed(lf: Life, q: QId) {
    && IsQueue(lf, q) && QueueOf(lf, q).done && QueueOf(lf, q).wg == 0
    && !(lf.desks[q.p].ctl.Creating? && lf.desks[q.p].ctl.q == q.n)
    && !(lf.desks[q.p].ctl.Updating? && lf.desks[q.p].ctl.next == q.n)
  }

  predicate AddsQueue(ll: LifeStep, q: QId) {
    ll.OnDesk? && ll.p == q.p && (ll.l.Create? || ll.l.Update?) && ll.l.q == q.n
  }

  lemma QueueEffect(d: Desk, l: DeskStep, q: nat)
    requires CanDesk(d, l)
    ensures q in AfterDesk(d, l).queues <==> q in d.queues || ((l.Create? || l.Update?) && l.q == q)
    ensures (l.Create? || l.Update?) && l.q == q ==> q !in d.queues && AfterDesk(d, l).queues[q] == NEW_QUEUE
    ensures q in d.queues && !l.Flag? && !(l.UpdateFlag? && d.ctl.prev == q) && !(l.RemoveFlag? && d.ctl.gone == q) ==>
              AfterDesk(d, l).queues[q].closing == d.queues[q].closing
  {
  }

  lemma ClosingEffect(lf: Life, ll: LifeStep, q: QId)
    requires CanLife(lf, ll)
    ensures IsQueue(AfterLife(lf, ll), q) <==> IsQueue(lf, q) || AddsQueue(ll, q)
    ensures AddsQueue(ll, q) ==> !IsQueue(lf, q) && !QueueOf(AfterLife(lf, ll), q).closing
    ensures IsQueue(lf, q) && SignalTarget(lf, ll) != Some(q) ==>
              QueueOf(AfterLife(lf, ll), q).closing == QueueOf(lf, q).closing
    ensures IsQueue(lf, q) && QueueOf(lf, q).closing ==> QueueOf(AfterLife(lf, ll), q).closing
    ensures SignalTarget(lf, ll) == Some(q) ==> IsQueue(lf, q) && QueueOf(AfterLife(lf, ll), q).closing
  {
    match ll {
      case OnDesk(p, l) =>
        if p == q.p {
          QueueEffect(DeskOf(lf, p), l, q.n);
          if q.n in DeskOf(lf, p).queues { QueuesRemain(DeskOf(lf, p), l, q.n); }
        }
      case ShutFlag(p) => SignalEffect(lf.desks[p], lf.desks[p].route.value);
      case ShutClose => SignalEffect(lf.desks[lf.shutdown.cur.value.p], lf.shutdown.cur.value.n);
      case _ =>
    }
  }

  lemma UnstaffedDesk(d: Desk, l: DeskStep, q: nat)
    requires CanDesk(d, l) && q in d.queues && d.queues[q].done && d.queues[q].wg == 0
    requires !(d.ctl.Creating? && d.ctl.q == q) && !(d.ctl.Updating? && d.ctl.next == q)
    ensures var d' := AfterDesk(d, l);
            && q in d'.queues && d'.queues[q].done && d'.queues[q].wg == 0
            && !(d'.ctl.Creating? && d'.ctl.q == q) && !(d'.ctl.Updating? && d'.ctl.next == q)
  {
  }

  lemma UnstaffedStable(lf: Life, ll: LifeStep, q: QId)
    requires CanLife(lf, ll) && Unstaffed(lf, q)
    ensures Unstaffed(AfterLife(lf, ll), q)
  {
    match ll {
      case OnDesk(p, l) => if p == q.p { UnstaffedDesk(lf.desks[p], l, q.n); }
      case ShutFlag(p) => SignalEffect(lf.desks[p], lf.desks[p].route.value);
      case ShutClose => SignalEffect(lf.desks[lf.shutdown.cur.value.p], lf.shutdown.cur.value.n);
      case _ =>
    }
  }

  /** The goroutine a control step belongs to. */
  predicate IsActor(ll: LifeStep, h: Holder) {
    ll.OnDesk? &&
    match ll.l
    case WorkerMove(q, k, _) => h == ByWorker(WId(QId(ll.p, q), k))
    case CleanupJoin(q) => h == ByCleanup(QId(ll.p, q))
    case CleanupUnretire(q) => h == ByCleanup(QId(ll.p, q))
    case Advance(_) => h == ByController(ll.p)
    case RemoveJoin => h == ByController(ll.p)
    case RemoveSwept => h == ByController(ll.p)
    case _ => false
  }

  lemma WorkerDutyDesk(d: Desk, l: DeskStep, q: nat, k: nat)
    requires CanDesk(d, l) && !(l.WorkerMove? && l.q == q && l.k == k)
    ensures var d' := AfterDesk(d, l);
            var was := if q in d.queues && k in d.queues[q].crew then d.queues[q].crew[k] else Idle;
            var now := if q in d'.queues && k in d'.queues[q].crew then d'.queues[q].crew[k] else Idle;
            now == was || (was == Leaving && now == Gone)
  {
  }

  lemma CtlDutyDesk(d: Desk, l: DeskStep, p: Provider)
    requires CanDesk(d, l) && !l.Advance? && !l.RemoveJoin? && !l.RemoveSwept?
    ensures CtlDuty(AfterDesk(d, l).ctl, p) == CtlDuty(d.ctl, p)
  {
  }

  lemma PhaseDesk(d: Desk, l: DeskStep, q: nat)
    requires CanDesk(d, l) && (q in d.queues ==> Placed(d.queues[q], q, d.route, d.ctl))
    requires !(l.CleanupJoin? && l.q == q) && !(l.CleanupUnretire? && l.q == q)
    ensures var d' := AfterDesk(d, l);
            (q in d'.queues && d'.queues[q].phase == Sweeping) <==> (q in d.queues && d.queues[q].phase == Sweeping)
  {
  }

  lemma PlacedAt(d: Desk, q: nat)
    requires QueuesOk(d)
    ensures q in d.queues ==> QueueOk(d.queues[q]) && Placed(d.queues[q], q, d.route, d.ctl)
  {
  }

  /** A control step changes nobody's duty but its own goroutine's. */
  lemma DutyDesk(lf: Life, p: Provider, l: DeskStep, h: Holder)
    requires DesksOk(lf.desks) && CanLife(lf, OnDesk(p, l)) && !IsActor(OnDesk(p, l), h)
    ensures DutyOf(AfterLife(lf, OnDesk(p, l)), h) == DutyOf(lf, h)
  {
    hide CanDesk, AfterDesk, CtlOk, RetiredOk, QueuesOk;
    EmptyDeskOk();
    match h {
      case ByWorker(w) => if w.q.p == p { WorkerDutyDesk(DeskOf(lf, p), l, w.q.n, w.k); }
      case ByController(p') => if p' == p { CtlDutyDesk(DeskOf(lf, p), l, p); }
      case ByCleanup(q) => if q.p == p { PlacedAt(DeskOf(lf, p), q.n); PhaseDesk(DeskOf(lf, p), l, q.n); }
      case _ =>
    }
  }

  lemma DutyEffect(lf: Life, ll: LifeStep, h: Holder)
    requires DesksOk(lf.desks) && CanLife(lf, ll) && !IsActor(ll, h)
    ensures DutyOf(AfterLife(lf, ll), h) == DutyOf(lf, h)
  {
    hide CanDesk, AfterDesk, DesksOk;
    match ll {
      case OnDesk(p, l) => DutyDesk(lf, p, l, h);
      case ShutFlag(p) => SignalEffect(lf.desks[p], lf.desks[p].route.value);
      case ShutClose => SignalEffect(lf.desks[lf.shutdown.cur.value.p], lf.shutdown.cur.value.n);
      case _ =>
    }
  }

  lemma PlainDuty(lf: Life, ll: LifeStep, h: Holder)
    requires DesksOk(lf.desks) && CanLife(lf, ll) && IsPlain(lf, ll)
    ensures DutyOf(AfterLife(lf, ll), h) == DutyOf(lf, h)
  {
    hide DesksOk;
    if !IsActor(ll, h) { DutyEffect(lf, ll, h); }
  }
}
