/** Every reachable state of the MCP manager: any number of clients, any interleaving of their operations. */
module McpManager {
  import opened Options
  import opened McpClient
  import opened McpGenerations

  type Manager = map<string, State>

  datatype Action = Action(id: string, step: Label)

  function ClientOf(m: Manager, id: string): State { if id in m then m[id] else INITIAL }

  predicate CanAct(m: Manager, a: Action) { Enabled(ClientOf(m, a.id), a.step) }

  function After(m: Manager, a: Action): Manager
    requires CanAct(m, a)
  {
    m[a.id := Next(ClientOf(m, a.id), a.step)]
  }

  predicate CanRun(run: seq<Action>)
    decreases |run|, 0
  {
    run == [] || (CanRun(run[..|run| - 1]) && CanAct(AfterRun(run[..|run| - 1]), run[|run| - 1]))
  }

  function AfterRun(run: seq<Action>): Manager
    requires CanRun(run)
    decreases |run|, 1
  {
    if run == [] then map[] else After(AfterRun(run[..|run| - 1]), run[|run| - 1])
  }

  lemma InitialInv()
    ensures Inv(INITIAL)
  {
  }

  lemma {:induction false} AlwaysInv(run: seq<Action>, id: string)
    requires CanRun(run)
    ensures Inv(ClientOf(AfterRun(run), id))
    decreases |run|
  {
    hide Inv, Enabled, Next;
    if run == [] {
      InitialInv();
    } else {
      var n := |run| - 1;
      AlwaysInv(run[..n], id);
      AlwaysInv(run[..n], run[n].id);
      StepKeepsInv(ClientOf(AfterRun(run[..n]), run[n].id), run[n].step);
    }
  }

  /** No map entry ever references a persistent connection that the manager has closed. */
  lemma NoEntryReferencesAClosedConnection(run: seq<Action>, id: string)
    requires CanRun(run)
    ensures var s := ClientOf(AfterRun(run), id);
            Has(s) && s.entry.value.conn.Some? ==> s.entry.value.conn.value in s.open
  {
    hide CanRun, AfterRun;
    AlwaysInv(run, id);
  }

  /**
   Whenever no operation of a client is in progress, its open persistent connections are exactly the
   one its entry references, also when RemoveClient raced a dial.
   */
  lemma NoConnectionIsLost(run: seq<Action>, id: string)
    requires CanRun(run) && ClientOf(AfterRun(run), id).op == None
    ensures ClientOf(AfterRun(run), id).open == Referenced(ClientOf(AfterRun(run), id))
  {
    hide CanRun, AfterRun;
    AlwaysInv(run, id);
  }

  /** A disabled client and a client on per-call connections hold no persistent connection. */
  lemma DormantHoldsNoConnection(run: seq<Action>, id: string)
    requires CanRun(run)
    ensures var s := ClientOf(AfterRun(run), id);
            Has(s) && (s.entry.value.health == Disabled || s.entry.value.config.perCall) ==> s.entry.value.conn == None
  {
    hide CanRun, AfterRun;
    AlwaysInv(run, id);
  }

  /** Every write-back of the run came from a check started on the entry it wrote to. */
  ghost predicate IsLoyalRun(run: seq<Action>)
    requires CanRun(run)
    decreases |run|
  {
    run == [] ||
    (IsLoyalRun(run[..|run| - 1]) && IsLoyal(ClientOf(AfterRun(run[..|run| - 1]), run[|run| - 1].id), run[|run| - 1].step))
  }

  /** Then a live entry's tools were listed on its current connection, or handed in from outside. */
  lemma {:induction false} ToolsBelongToTheConnection(run: seq<Action>, id: string)
    requires CanRun(run) && IsLoyalRun(run)
    ensures ToolsOk(ClientOf(AfterRun(run), id))
    decreases |run|
  {
    hide Inv, Enabled, Next, IsLoyal;
    if run != [] {
      var n := |run| - 1;
      ToolsBelongToTheConnection(run[..n], id);
      ToolsBelongToTheConnection(run[..n], run[n].id);
      AlwaysInv(run[..n], run[n].id);
      ToolsKept(ClientOf(AfterRun(run[..n]), run[n].id), run[n].step);
    }
  }

  // ----- across a removal -----

  const STICKY := Config(false, true, false)

  function Live(ptr: nat, c: Conn, tools: Tools): Entry { Entry(ptr, STICKY, Some(c), Healthy, 2, tools) }

  ghost predicate Reaches(run: seq<Action>, id: string, s: State) { CanRun(run) && ClientOf(AfterRun(run), id) == s }

  lemma Extend(run: seq<Action>, id: string, s: State, l: Label)
    requires Reaches(run, id, s) && Enabled(s, l)
    ensures Reaches(run + [Action(id, l)], id, Next(s, l))
  {
    hide Enabled, Next;
    assert (run + [Action(id, l)])[..|run|] == run;
  }

  /** Adding and connecting a client from scratch always ends at generation 2. */
  lemma ConnectsAtTwo(before: seq<Action>, id: string, s: State) returns (run: seq<Action>, t: State)
    requires Reaches(before, id, s) && s.entry == None && s.op == None
    ensures Reaches(run, id, t)
    ensures t.entry == Some(Live(s.ptrs, s.dialed, ListedOn(s.dialed))) && t.op == None && t.checks == s.checks
    ensures t.ptrs == s.ptrs + 1 && t.dialed == s.dialed + 1
  {
    hide Reaches;
    Extend(before, id, s, Add(STICKY));
    var s1 := Next(s, Add(STICKY));
    run := before + [Action(id, Add(STICKY))];
    Extend(run, id, s1, FirstLock);
    var s2 := Next(s1, FirstLock);
    run := run + [Action(id, FirstLock)];
    Extend(run, id, s2, Dial);
    var s3 := Next(s2, Dial);
    run := run + [Action(id, Dial)];
    Extend(run, id, s3, Commit);
    var s4 := Next(s3, Commit);
    run := run + [Action(id, Commit)];
    Extend(run, id, s4, Finish);
    t := Next(s4, Finish);
    run := run + [Action(id, Finish)];
  }

  /**
   Across a removal and re-addition the generation guard does not help: a check started before the
   removal writes the removed connection's tools into the new entry, whose connection is another one.
   */
  lemma StaleToolsAfterReAdd(id: string) returns (run: seq<Action>, s: State)
    ensures Reaches(run, id, s) && s.op == None
    ensures s.entry == Some(Live(1, 1, ListedOn(0))) && !ToolsOk(s)
  {
    hide Reaches;
    ReachesNothing(id);
    run, s := ConnectsAtTwo([], id, INITIAL);
    Extend(run, id, s, CheckStart(0));
    s, run := Next(s, CheckStart(0)), run + [Action(id, CheckStart(0))];
    Extend(run, id, s, Remove);
    s, run := Next(s, Remove), run + [Action(id, Remove)];
    run, s := ConnectsAtTwo(run, id, s);
    Extend(run, id, s, WriteBack(0));
    s, run := Next(s, WriteBack(0)), run + [Action(id, WriteBack(0))];
  }

  /** DisableClient keeps the generation, so a check in flight still writes its tools into the disabled entry. */
  lemma DisabledClientGetsTools(id: string) returns (run: seq<Action>, s: State)
    ensures Reaches(run, id, s) && s.op == None && Has(s)
    ensures s.entry.value.health == Disabled && s.entry.value.conn == None && s.entry.value.tools == ListedOn(0) && 0 !in s.open
  {
    hide Reaches;
    ReachesNothing(id);
    run, s := ConnectsAtTwo([], id, INITIAL);
    Extend(run, id, s, CheckStart(0));
    s, run := Next(s, CheckStart(0)), run + [Action(id, CheckStart(0))];
    Extend(run, id, s, Disable);
    s, run := Next(s, Disable), run + [Action(id, Disable)];
    Extend(run, id, s, WriteBack(0));
    s, run := Next(s, WriteBack(0)), run + [Action(id, WriteBack(0))];
  }

  /** SetClientTools marks a client healthy that was added disabled and never enabled. */
  lemma DisabledClientTurnsHealthy(id: string) returns (run: seq<Action>, s: State)
    ensures Reaches(run, id, s) && s.op == None && Has(s)
    ensures s.entry.value.health == Healthy && s.entry.value.config.off && s.entry.value.conn == None
    ensures forall i :: 0 <= i < |run| ==> run[i].step != Enable
  {
    hide Reaches;
    ReachesNothing(id);
    var dormant := AddDisabled(STICKY.(off := true), NoTools);
    Extend([], id, INITIAL, dormant);
    s, run := Next(INITIAL, dormant), [] + [Action(id, dormant)];
    Extend(run, id, s, SetTools);
    s, run := Next(s, SetTools), run + [Action(id, SetTools)];
  }

  lemma ReachesNothing(id: string)
    ensures Reaches([], id, INITIAL)
  {
  }
}
