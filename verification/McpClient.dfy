/**
 The connection lifecycle of one MCP client ID: connect attempts that dial outside the manager lock,
 and everything that can happen to the client meanwhile. Each section under the manager's lock is one
 step; a dial is a multi-step activity between two such sections. The exclusive-operation slot of the
 ID is `op`: whoever needs the slot waits for `op == None` (see ExclusiveSlot). Clients with different
 IDs share no state.
 */
module McpClient {
  import opened Options

  type Conn = nat

  /**
   `perCall` is RequiresPerCallConnection of the config, `beside` whether its transport (HTTP, SSE)
   may dial while the old connection still serves, `off` its Disabled flag.
   */
  datatype Config = Config(perCall: bool, beside: bool, off: bool)

  datatype Health = Unset | Healthy | Unstable | NeedsReauth | PendingVerification | Disabled

  /** Where the tool map came from: a connection, a per-call discovery, or SetClientTools. */
  datatype Tools = NoTools | ListedOn(c: Conn) | Discovered | Given

  /** The map entry of the client; `ptr` is its identity, `gen` its ConnGeneration. */
  datatype Entry = Entry(ptr: nat, config: Config, conn: Option<Conn>, health: Health, gen: nat, tools: Tools)

  /** Who runs the operation that holds the slot. */
  datatype Origin = Adding | Reconnecting | Enabling | Updating | Recrediting(was: Config)

  datatype Op =
    | Ready(origin: Origin, config: Config)
    | Dialing(origin: Origin, config: Config, ptr: nat, beside: bool, made: Option<Conn>, prev: Option<Conn>)
    | Failing(origin: Origin, made: Option<Conn>, prev: Option<Conn>)
    | Replacing(prev: Option<Conn>)
    | Failed(origin: Origin)

  /** A connection check or SSE callback in flight: what it captured. */
  datatype Capture = Capture(ptr: nat, gen: nat, conn: Option<Conn>)

  /** Auxiliary: the entry and generation a connection was installed with. */
  datatype Birth = Birth(ptr: nat, gen: nat)

  /**
   `open` are the persistent connections dialed and not closed by the manager; `ptrs` and `dialed`
   number the next entry and the next connection; `checks` and `callbacks` are in flight.
   */
  datatype State = State(
    entry: Option<Entry>, op: Option<Op>, open: set<Conn>, ptrs: nat, dialed: nat,
    checks: map<nat, Capture>, callbacks: set<Capture>, born: map<Conn, Birth>)

  const INITIAL := State(None, None, {}, 0, 0, map[], {}, map[])

  datatype Label =
    | AddDisabled(config: Config, tools: Tools) | Add(config: Config) | AddParked | AddPerCall
    | Reconnect | Enable | EnablePerCall | UpdateSame(config: Config) | UpdateToPerCall(config: Config)
    | UpdateToSticky(config: Config) | Recredit(config: Config)
    | FirstLock | ClosePrev | Dial | DialBroken | Fail(reauth: bool) | Commit | CloseFresh | CloseReplaced | Finish
    | Remove | SetTools | Disable | CloseReauth
    | CheckStart(k: nat) | WriteBack(k: nat) | CheckState(k: nat, ok: bool) | ConnectionLost(cb: Capture)

  predicate Has(s: State) { s.entry.Some? }

  /** The exclusive slot is free and the client exists. */
  predicate IsFree(s: State) { s.entry.Some? && s.op == None }

  predicate Dials(s: State) { s.op.Some? && s.op.value.Dialing? }

  /** The dial may run: with close-first, the old handle is closed before. */
  predicate MayDial(s: State) { Dials(s) && (s.op.value.beside || s.op.value.prev == None) }

  predicate IsGuarded(h: Health) { h == Disabled || h == NeedsReauth }

  /** The entry this attempt started with is still in the map and not disabled. */
  predicate IsCurrent(s: State) {
    Dials(s) && s.entry.Some? && s.entry.value.ptr == s.op.value.ptr && s.entry.value.health != Disabled
  }

  predicate Enabled(s: State, l: Label) {
    match l
    case AddDisabled(config, tools) => s.entry == None && config.off && (tools == NoTools || (config.perCall && tools == Discovered))
    case Add(config) => s.entry == None && s.op == None && !config.off
    case AddParked => s.op.Some? && s.op.value.Ready? && s.op.value.origin.Adding?
    case AddPerCall => s.op.Some? && s.op.value.Ready? && s.op.value.origin.Adding? && s.op.value.config.perCall
    case Reconnect => IsFree(s) && !s.entry.value.config.perCall
    case Enable => IsFree(s) && s.entry.value.health == Disabled
    case EnablePerCall => s.op.Some? && s.op.value.Ready? && s.op.value.origin.Enabling? && s.op.value.config.perCall
    case UpdateSame(config) => IsFree(s) && config.perCall == s.entry.value.config.perCall && config.beside == s.entry.value.config.beside
    case UpdateToPerCall(config) => IsFree(s) && config.perCall && !s.entry.value.config.perCall && config.beside == s.entry.value.config.beside
    case UpdateToSticky(config) => IsFree(s) && !config.perCall && s.entry.value.config.perCall && config.beside == s.entry.value.config.beside
    case Recredit(config) => IsFree(s) && !s.entry.value.config.perCall && config == s.entry.value.config
    case FirstLock => s.op.Some? && s.op.value.Ready? && !s.op.value.config.perCall
    case ClosePrev => Dials(s) && !s.op.value.beside && s.op.value.prev.Some?
    case Dial => MayDial(s)
    case DialBroken => MayDial(s)
    case Fail(_) => MayDial(s)
    case Commit => MayDial(s)
    case CloseFresh => s.op.Some? && s.op.value.Failing? && s.op.value.made.Some?
    case CloseReplaced =>
      || (s.op.Some? && s.op.value.Failing? && s.op.value.made == None && s.op.value.prev.Some?)
      || (s.op.Some? && s.op.value.Replacing? && s.op.value.prev.Some?)
    case Finish =>
      && s.op.Some?
      && (s.op.value.Failed? || (s.op.value.Failing? && s.op.value.made == None && s.op.value.prev == None)
          || (s.op.value.Replacing? && s.op.value.prev == None))
    case Remove => Has(s)
    case SetTools => Has(s)
    case Disable => IsFree(s) && s.entry.value.health != Disabled
    case CloseReauth => IsFree(s) && !s.entry.value.config.perCall && s.entry.value.health != Disabled
    case CheckStart(k) =>
      && k !in s.checks && Has(s) && !IsGuarded(s.entry.value.health)
      && (s.entry.value.conn.Some? || s.entry.value.config.perCall)
    case WriteBack(k) => k in s.checks
    case CheckState(k, _) => k in s.checks
    case ConnectionLost(cb) => cb in s.callbacks
  }

  function Without(open: set<Conn>, c: Option<Conn>): set<Conn> { if c.Some? then open - {c.value} else open }

  /** The dialing attempt with other connection handles. */
  function Handles(op: Op, made: Option<Conn>, prev: Option<Conn>): Op
    requires op.Dialing?
  {
    Dialing(op.origin, op.config, op.ptr, op.beside, made, prev)
  }

  function Put(s: State, e: Entry): State { s.(entry := Some(e)) }

  /** Writes to the entry of the ID, whichever that is, and nothing if there is none. */
  function Mark(s: State, h: Health): State { if Has(s) then Put(s, s.entry.value.(health := h)) else s }

  /** The tail of EnableClient and UpdateClient after a failed connect. */
  function MarkUnstable(s: State): State { if Has(s) && !IsGuarded(s.entry.value.health) then Mark(s, Unstable) else s }

  /** What the failure exit of connectToMCPClient writes: only to its own entry, and not over Disabled. */
  function Abort(s: State, reauth: bool): State
    requires Dials(s)
  {
    var op := s.op.value;
    var s' := if IsCurrent(s)
              then Put(s, s.entry.value.(conn := None, gen := s.entry.value.gen + 1, health := if reauth then NeedsReauth else Unstable))
              else s;
    s'.(op := Some(Failing(op.origin, op.made, op.prev)))
  }

  function Detached(s: State): State
    requires Has(s)
  {
    Put(s, s.entry.value.(conn := None)).(open := Without(s.open, s.entry.value.conn))
  }

  predicate Matches(s: State, k: Capture) { Has(s) && s.entry.value.gen == k.gen }

  function FirstLocked(s: State): State
    requires Enabled(s, FirstLock)
  {
    var origin, config := s.op.value.origin, s.op.value.config;
    if s.entry == None then
      Put(s, Entry(s.ptrs, config, None, Unstable, 0, NoTools)).(
        ptrs := s.ptrs + 1, op := Some(Dialing(origin, config, s.ptrs, false, None, None)))
    else
      var e := s.entry.value;
      if e.health == Disabled && config.off then s.(op := Some(Failed(origin)))
      else if e.conn.Some? && config.beside then
        Put(s, e.(config := config)).(op := Some(Dialing(origin, config, e.ptr, true, None, e.conn)))
      else
        Put(s, e.(config := config, conn := None, health := Unstable, gen := e.gen + 1)).(
          op := Some(Dialing(origin, config, e.ptr, false, None, e.conn)))
  }

  function Committed(s: State): State
    requires Enabled(s, Commit)
  {
    if IsCurrent(s) then
      var op, e := s.op.value, s.entry.value;
      var s' := Put(s, e.(conn := op.made, health := Healthy, gen := e.gen + 1,
                          tools := if op.made.Some? then ListedOn(op.made.value) else NoTools));
      s'.(op := Some(Replacing(op.prev)),
          born := if op.made.Some? then s.born[op.made.value := Birth(e.ptr, e.gen + 1)] else s.born,
          callbacks := if op.made.Some? then s.callbacks + {Capture(e.ptr, e.gen + 1, op.made)} else s.callbacks)
    else Abort(s, false)
  }

  function Finished(s: State): State
    requires Enabled(s, Finish)
  {
    var s' := s.(op := None);
    if s.op.value.Replacing? then s'
    else match s.op.value.origin
      case Adding => s'.(entry := None)
      case Reconnecting => s'
      case Enabling => MarkUnstable(s')
      case Updating => MarkUnstable(s')
      case Recrediting(was) => if Has(s) then Put(s', s.entry.value.(config := was)) else s'
  }

  function Next(s: State, l: Label): State
    requires Enabled(s, l)
  {
    match l
    case AddDisabled(config, tools) => Put(s, Entry(s.ptrs, config, None, Disabled, 0, tools)).(ptrs := s.ptrs + 1)
    case Add(config) => Put(s, Entry(s.ptrs, config, None, Unset, 0, NoTools)).(ptrs := s.ptrs + 1, op := Some(Ready(Adding, config)))
    case AddParked => Mark(s, PendingVerification).(op := None)
    case AddPerCall => Mark(s, Healthy).(op := None)
    case Reconnect => s.(op := Some(Ready(Reconnecting, s.entry.value.config)))
    case Enable =>
      var config := s.entry.value.config.(off := false);
      Put(s, s.entry.value.(config := config)).(op := Some(Ready(Enabling, config)))
    case EnablePerCall => Mark(s, Healthy).(op := None)
    case UpdateSame(config) => Put(s, s.entry.value.(config := config))
    case UpdateToPerCall(config) =>
      var s' := Detached(s);
      var e := s'.entry.value;
      Put(s', e.(config := config, gen := e.gen + 1, health := if IsGuarded(e.health) then e.health else Healthy))
    case UpdateToSticky(config) => Put(s, s.entry.value.(config := config)).(op := Some(Ready(Updating, config)))
    case Recredit(config) => s.(op := Some(Ready(Recrediting(s.entry.value.config), config)))
    case FirstLock => FirstLocked(s)
    case ClosePrev => s.(open := Without(s.open, s.op.value.prev), op := Some(Handles(s.op.value, s.op.value.made, None)))
    case Dial =>
      s.(open := Without(s.open, s.op.value.made) + {s.dialed}, dialed := s.dialed + 1, op := Some(Handles(s.op.value, Some(s.dialed), s.op.value.prev)))
    case DialBroken => s.(open := Without(s.open, s.op.value.made), op := Some(Handles(s.op.value, None, s.op.value.prev)))
    case Fail(reauth) => Abort(s, reauth)
    case Commit => Committed(s)
    case CloseFresh => s.(open := Without(s.open, s.op.value.made), op := Some(Failing(s.op.value.origin, None, s.op.value.prev)))
    case CloseReplaced =>
      s.(open := Without(s.open, s.op.value.prev),
         op := Some(if s.op.value.Failing? then Failing(s.op.value.origin, None, None) else Replacing(None)))
    case Finish => Finished(s)
    case Remove => Detached(s).(entry := None)
    case SetTools => Put(s, s.entry.value.(tools := Given, health := Healthy))
    case Disable =>
      var s' := Detached(s);
      var e := s'.entry.value;
      Put(s', e.(health := Disabled, config := e.config.(off := true), tools := if e.config.perCall then e.tools else NoTools))
    case CloseReauth => Mark(Detached(s), NeedsReauth)
    case CheckStart(k) => s.(checks := s.checks[k := Capture(s.entry.value.ptr, s.entry.value.gen, s.entry.value.conn)])
    case WriteBack(k) =>
      if Matches(s, s.checks[k])
      then Put(s, s.entry.value.(tools := if s.checks[k].conn.Some? then ListedOn(s.checks[k].conn.value) else Discovered))
      else s
    case CheckState(k, ok) =>
      if Matches(s, s.checks[k]) && !IsGuarded(s.entry.value.health) then Mark(s, if ok then Healthy else Unstable) else s
    case ConnectionLost(cb) =>
      if Matches(s, cb) && !IsGuarded(s.entry.value.health) then Mark(s, Unstable) else s
  }

  // ----- connections -----

  function Held(op: Option<Op>): set<Conn> {
    match op
    case None => {}
    case Some(Dialing(_, _, _, _, made, prev)) => One(made) + One(prev)
    case Some(Failing(_, made, prev)) => One(made) + One(prev)
    case Some(Replacing(prev)) => One(prev)
    case Some(_) => {}
  }

  function One(c: Option<Conn>): set<Conn> { if c.Some? then {c.value} else {} }

  /** The connection the map entry references. */
  function Referenced(s: State): set<Conn> { if Has(s) then One(s.entry.value.conn) else {} }

  /** What a connect attempt in progress may rely on. */
  predicate OpOk(s: State) {
    match s.op
    case None => true
    case Some(Ready(origin, config)) =>
      && (config.perCall ==> origin.Adding? || origin.Enabling?)
      && (origin.Recrediting? ==> !origin.was.perCall)
      && (origin.Adding? && Has(s) ==> s.entry.value.conn == None)
    case Some(Dialing(origin, config, ptr, beside, made, prev)) =>
      && !config.perCall && (origin.Recrediting? ==> !origin.was.perCall)
      && ptr < s.ptrs && (beside ==> prev.Some?) && (made.Some? ==> made.value in s.open && made != prev)
      && (Has(s) ==> s.entry.value.conn == if beside && s.entry.value.ptr == ptr then prev else None)
      && (Has(s) && s.entry.value.ptr == ptr ==> s.entry.value.config == config)
    case Some(Failing(origin, _, _)) => (origin.Recrediting? ==> !origin.was.perCall) && (Has(s) ==> s.entry.value.conn == None)
    case Some(Replacing(prev)) => prev.Some? && Has(s) ==> s.entry.value.conn != prev
    case Some(Failed(origin)) => (origin.Recrediting? ==> !origin.was.perCall) && (Has(s) && origin.Adding? ==> s.entry.value.conn == None)
  }

  /** The entry's connection is open, and every open one is referenced by the entry or held by the attempt. */
  predicate OpenOk(s: State) {
    Referenced(s) <= s.open <= Referenced(s) + Held(s.op)
  }

  ghost predicate NumbersOk(s: State) {
    && (forall c :: c in s.open || c in Held(s.op) ==> c < s.dialed)
    && (Has(s) ==> s.entry.value.ptr < s.ptrs)
  }

  predicate ModesOk(s: State) {
    Has(s) && (s.entry.value.health == Disabled || s.entry.value.config.perCall) ==> s.entry.value.conn == None
  }

  ghost predicate ConnsOk(s: State) { OpenOk(s) && NumbersOk(s) && ModesOk(s) && OpOk(s) }

  /** Steps of an attempt between its two locks. */
  predicate IsDialStep(l: Label) { l.FirstLock? || l.ClosePrev? || l.Dial? || l.DialBroken? }

  /** Steps of an attempt from its second lock on. */
  predicate IsEndStep(l: Label) { l.Fail? || l.Commit? || l.CloseFresh? || l.CloseReplaced? || l.Finish? }

  lemma ConnsAfterDial(s: State, l: Label)
    requires ConnsOk(s) && Enabled(s, l) && IsDialStep(l)
    ensures OpenOk(Next(s, l)) && NumbersOk(Next(s, l))
  {
    match l case FirstLock => {} case ClosePrev => {} case Dial => {} case DialBroken => {}
  }

  lemma ConnsAfterAbort(s: State, reauth: bool)
    requires ConnsOk(s) && Dials(s)
    ensures OpenOk(Abort(s, reauth)) && NumbersOk(Abort(s, reauth))
  {
  }

  lemma ConnsAfterCommit(s: State)
    requires ConnsOk(s) && Enabled(s, Commit) && IsCurrent(s)
    ensures OpenOk(Committed(s)) && NumbersOk(Committed(s))
  {
  }

  lemma ConnsAfterEnd(s: State, l: Label)
    requires ConnsOk(s) && Enabled(s, l) && IsEndStep(l)
    ensures OpenOk(Next(s, l)) && NumbersOk(Next(s, l))
  {
    if l.Fail? { ConnsAfterAbort(s, l.reauth); }
    else if l.Commit? && IsCurrent(s) { ConnsAfterCommit(s); }
    else if l.Commit? { ConnsAfterAbort(s, false); }
  }

  lemma ConnsAfterRest(s: State, l: Label)
    requires ConnsOk(s) && Enabled(s, l) && !IsDialStep(l) && !IsEndStep(l)
    ensures OpenOk(Next(s, l)) && NumbersOk(Next(s, l))
  {
  }

  lemma ModesKept(s: State, l: Label)
    requires ModesOk(s) && OpOk(s) && Enabled(s, l)
    ensures ModesOk(Next(s, l))
  {
  }

  lemma OpAfterOp(s: State, l: Label)
    requires ConnsOk(s) && Enabled(s, l) && (IsDialStep(l) || IsEndStep(l))
    ensures OpOk(Next(s, l))
  {
  }

  lemma OpAfterRest(s: State, l: Label)
    requires ConnsOk(s) && Enabled(s, l) && !IsDialStep(l) && !IsEndStep(l)
    ensures OpOk(Next(s, l))
  {
  }

  lemma ConnsKept(s: State, l: Label)
    requires ConnsOk(s) && Enabled(s, l)
    ensures ConnsOk(Next(s, l))
  {
    hide OpenOk, NumbersOk, ModesOk, OpOk, Enabled, Next;
    if IsDialStep(l) { ConnsAfterDial(s, l); OpAfterOp(s, l); }
    else if IsEndStep(l) { ConnsAfterEnd(s, l); OpAfterOp(s, l); }
    else { ConnsAfterRest(s, l); OpAfterRest(s, l); }
    ModesKept(s, l);
  }
}
