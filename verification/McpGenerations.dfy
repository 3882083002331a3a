/**
 Connection generations and the manager as a whole: late writers of a replaced connection change
 nothing, tools belong to the current connection, and no connection is lost or referenced after close.
 */
module McpGenerations {
  import opened Options
  import opened McpClient

  // ----- generations identify connections within an entry's lifetime -----

  /** Every connection was installed with a generation of its own, not above its entry's current one. */
  ghost predicate BirthsOk(s: State) {
    && (forall c :: c in s.born ==>
          c < s.dialed && s.born[c].ptr < s.ptrs && (Has(s) && s.born[c].ptr == s.entry.value.ptr ==> s.born[c].gen <= s.entry.value.gen))
    && (forall c, d :: c in s.born && d in s.born && s.born[c] == s.born[d] ==> c == d)
  }

  /** The entry's generation is its connection's; a connection still being dialed was not installed yet. */
  ghost predicate CurrentOk(s: State) {
    && (Has(s) && s.entry.value.conn.Some? ==>
          s.entry.value.conn.value in s.born && s.born[s.entry.value.conn.value] == Birth(s.entry.value.ptr, s.entry.value.gen))
    && (Dials(s) && s.op.value.made.Some? ==> s.op.value.made.value !in s.born)
  }

  ghost predicate GensOk(s: State) { BirthsOk(s) && CurrentOk(s) }

  /** At a generation of a per-call entry no connection was ever installed. */
  ghost predicate PerCallOk(s: State) {
    Has(s) && s.entry.value.config.perCall ==> forall c :: c in s.born ==> s.born[c] != Birth(s.entry.value.ptr, s.entry.value.gen)
  }

  /** What a check or callback captured stays what it was. */
  ghost predicate CaptureOk(s: State, k: Capture) {
    && k.ptr < s.ptrs && (Has(s) && k.ptr == s.entry.value.ptr ==> k.gen <= s.entry.value.gen)
    && (if k.conn.Some? then k.conn.value in s.born && s.born[k.conn.value] == Birth(k.ptr, k.gen)
        else forall c :: c in s.born ==> s.born[c] != Birth(k.ptr, k.gen))
  }

  ghost predicate CapturesOk(s: State) {
    && (forall k :: k in s.checks ==> CaptureOk(s, s.checks[k]))
    && (forall k :: k in s.callbacks ==> CaptureOk(s, k))
  }

  ghost predicate Inv(s: State) { ConnsOk(s) && GensOk(s) && PerCallOk(s) && CapturesOk(s) }

  /** What a step does to identities: a birth only at a commit, above every generation of its entry. */
  ghost predicate BirthStep(s: State, s': State) {
    && s.ptrs <= s'.ptrs && s.dialed <= s'.dialed
    && (Has(s') ==> (Has(s) && s'.entry.value.ptr == s.entry.value.ptr && s'.entry.value.gen >= s.entry.value.gen)
                    || s'.entry.value.ptr >= s.ptrs)
    && (s'.born == s.born
        || (&& IsCurrent(s) && s.op.value.made.Some? && Has(s') && s'.entry.value.ptr == s.entry.value.ptr
            && s'.entry.value.gen == s.entry.value.gen + 1
            && s'.born == s.born[s.op.value.made.value := Birth(s.entry.value.ptr, s.entry.value.gen + 1)]))
  }

  lemma EndIsBirthStep(s: State, l: Label)
    requires Enabled(s, l) && IsEndStep(l)
    ensures BirthStep(s, Next(s, l))
  {
  }

  lemma RestIsBirthStep(s: State, l: Label)
    requires Enabled(s, l) && !IsEndStep(l)
    ensures BirthStep(s, Next(s, l))
  {
  }

  lemma StepIsBirthStep(s: State, l: Label)
    requires Enabled(s, l)
    ensures BirthStep(s, Next(s, l))
  {
    hide Enabled, Next, BirthStep, IsEndStep;
    if IsEndStep(l) { EndIsBirthStep(s, l); } else { RestIsBirthStep(s, l); }
  }

  lemma CaptureKept(s: State, s': State, k: Capture)
    requires CaptureOk(s, k) && GensOk(s) && BirthStep(s, s')
    ensures CaptureOk(s', k)
  {
  }

  lemma CapturesKept(s: State, l: Label)
    requires CapturesOk(s) && GensOk(s) && PerCallOk(s) && NumbersOk(s) && Enabled(s, l)
    requires GensOk(Next(s, l))
    ensures CapturesOk(Next(s, l))
  {
    hide CaptureOk;
    var s' := Next(s, l);
    StepIsBirthStep(s, l);
    forall k | k in s'.checks ensures CaptureOk(s', s'.checks[k]) {
      if k in s.checks { CaptureKept(s, s', s.checks[k]); } else { NewCheckOk(s, l); }
    }
    forall k | k in s'.callbacks ensures CaptureOk(s', k) {
      if k in s.callbacks { CaptureKept(s, s', k); } else { NewCallbackOk(s, l, k); }
    }
  }

  lemma NewCheckOk(s: State, l: Label)
    requires GensOk(s) && PerCallOk(s) && NumbersOk(s) && Enabled(s, l) && l.CheckStart?
    ensures CaptureOk(Next(s, l), Next(s, l).checks[l.k])
  {
  }

  lemma NewCallbackOk(s: State, l: Label, k: Capture)
    requires NumbersOk(s) && Enabled(s, l) && k in Next(s, l).callbacks && k !in s.callbacks
    requires GensOk(Next(s, l)) && Next(s, l).ptrs == s.ptrs
    ensures CaptureOk(Next(s, l), k)
  {
  }

  lemma BirthsKept(s: State, s': State)
    requires BirthsOk(s) && CurrentOk(s) && NumbersOk(s) && OpOk(s) && BirthStep(s, s')
    ensures BirthsOk(s')
  {
  }

  /** A connection is in the entry because it was, at the same generation, or because it was just committed. */
  lemma ConnStep(s: State, l: Label)
    requires Enabled(s, l)
    ensures var s' := Next(s, l);
            Has(s') && s'.entry.value.conn.Some? ==>
              if l.Commit? && IsCurrent(s)
              then s'.entry.value.conn == s.op.value.made && s'.entry.value.ptr == s.entry.value.ptr && s'.entry.value.gen == s.entry.value.gen + 1
              else Has(s) && s'.entry.value.conn == s.entry.value.conn && s'.entry.value.ptr == s.entry.value.ptr
                   && s'.entry.value.gen == s.entry.value.gen && s'.born == s.born
  {
  }

  lemma MadeStep(s: State, l: Label)
    requires Enabled(s, l)
    ensures var s' := Next(s, l);
            Dials(s') && s'.op.value.made.Some? ==>
              s'.born == s.born && (s'.op.value.made.value == s.dialed || (Dials(s) && s'.op.value.made == s.op.value.made))
  {
  }

  lemma GensKept(s: State, l: Label)
    requires GensOk(s) && ConnsOk(s) && Enabled(s, l)
    ensures GensOk(Next(s, l))
  {
    hide Next, Enabled, BirthStep, OpenOk, NumbersOk, ModesOk, OpOk;
    StepIsBirthStep(s, l);
    BirthsKept(s, Next(s, l));
    ConnStep(s, l);
    MadeStep(s, l);
    if l.Commit? && IsCurrent(s) && s.op.value.made.Some? { CommitNow(s, l); }
  }

  lemma CommitNow(s: State, l: Label)
    requires Enabled(s, l) && l.Commit? && IsCurrent(s) && s.op.value.made.Some?
    ensures Next(s, l).born == s.born[s.op.value.made.value := Birth(s.entry.value.ptr, s.entry.value.gen + 1)]
  {
  }

  /** A per-call entry was one before at the same generation, or has just got a new generation, or is new. */
  lemma PerCallStep(s: State, l: Label)
    requires Enabled(s, l) && OpOk(s)
    ensures var s' := Next(s, l);
            Has(s') && s'.entry.value.config.perCall ==>
              || (Has(s) && s.entry.value.config.perCall && s'.entry.value.ptr == s.entry.value.ptr && s'.entry.value.gen == s.entry.value.gen && s'.born == s.born)
              || (s'.born == s.born && (s'.entry.value.ptr >= s.ptrs || (Has(s) && s'.entry.value.ptr == s.entry.value.ptr && s'.entry.value.gen > s.entry.value.gen)))
  {
  }

  lemma PerCallKept(s: State, l: Label)
    requires PerCallOk(s) && BirthsOk(s) && OpOk(s) && Enabled(s, l)
    ensures PerCallOk(Next(s, l))
  {
    hide Next, Enabled, OpOk;
    PerCallStep(s, l);
  }

  /**
   Within one entry's lifetime generations only grow, and a connection that appears in the entry is a
   new one and comes with a new generation.
   */
  lemma GenerationsGrow(s: State, l: Label)
    requires GensOk(s) && Enabled(s, l) && Has(s) && Has(Next(s, l)) && Next(s, l).entry.value.ptr == s.entry.value.ptr && NumbersOk(s)
    ensures Next(s, l).entry.value.gen >= s.entry.value.gen
    ensures var was, now := s.entry.value, Next(s, l).entry.value;
            now.conn.Some? && now.conn != was.conn ==> now.gen > was.gen && now.conn.value !in s.born
  {
    hide Next, Enabled;
    StepIsBirthStep(s, l);
    ConnStep(s, l);
  }

  lemma StepKeepsInv(s: State, l: Label)
    requires Inv(s) && Enabled(s, l)
    ensures Inv(Next(s, l))
  {
    hide Next, Enabled, OpenOk, ModesOk, OpOk, NumbersOk, BirthsOk, CurrentOk, PerCallOk, CapturesOk;
    ConnsKept(s, l);
    GensKept(s, l);
    PerCallKept(s, l);
    CapturesKept(s, l);
  }

  // ----- late writers -----

  /** Captured while another connection of this same entry was current. */
  predicate IsStale(s: State, k: Capture) {
    Has(s) && k.ptr == s.entry.value.ptr && k.conn.Some? && s.entry.value.conn.Some? && s.entry.value.conn != k.conn
  }

  /** A check that captured a connection since replaced writes neither tools nor state, and a loss callback no state. */
  lemma StaleWriterChangesNothing(s: State, l: Label)
    requires Inv(s) && Enabled(s, l)
    requires match l
             case WriteBack(k) => IsStale(s, s.checks[k])
             case CheckState(k, _) => IsStale(s, s.checks[k])
             case ConnectionLost(cb) => IsStale(s, cb)
             case _ => false
    ensures Next(s, l) == s
  {
    hide OpOk, OpenOk, PerCallOk;
    if l.ConnectionLost? { assert CaptureOk(s, l.cb); } else { assert CaptureOk(s, s.checks[l.k]); }
  }

  /** A live entry's tools were listed on its current connection, or handed in by SetClientTools. */
  predicate ToolsOk(s: State) {
    Has(s) && s.entry.value.conn.Some? ==> s.entry.value.tools == ListedOn(s.entry.value.conn.value) || s.entry.value.tools == Given
  }

  /** Write-backs of checks that were started on the entry now in the map. */
  predicate IsLoyal(s: State, l: Label) {
    l.WriteBack? && l.k in s.checks && Has(s) ==> s.checks[l.k].ptr == s.entry.value.ptr
  }

  /**
   Exactly when a write-back leaves a live entry with tools of its own connection: unless the check was
   started on an earlier entry of the same ID whose generation number happens to be the current one.
   */
  lemma WriteBackIff(s: State, k: nat)
    requires Inv(s) && ToolsOk(s) && k in s.checks
    ensures ToolsOk(Next(s, WriteBack(k))) <==>
            !(Has(s) && s.entry.value.conn.Some? && s.checks[k].gen == s.entry.value.gen && s.checks[k].ptr != s.entry.value.ptr)
  {
    hide OpOk, OpenOk, PerCallOk;
    assert CaptureOk(s, s.checks[k]);
  }

  lemma ToolsKept(s: State, l: Label)
    requires Inv(s) && ToolsOk(s) && Enabled(s, l) && IsLoyal(s, l)
    ensures ToolsOk(Next(s, l))
  {
    hide Inv;
    if l.WriteBack? { WriteBackIff(s, l.k); }
  }

  // ----- who may overwrite Disabled and NeedsReauth -----

  /** The attempt that is about to take its first lock was told to connect: its config is not switched off. */
  predicate Revives(s: State, l: Label) { l.FirstLock? && s.op.Some? && s.op.value.Ready? && !s.op.value.config.off }

  /**
   An entry leaves Disabled exactly by an attempt whose config is enabled, the per-call branches of
   adding and enabling, parking for verification, and SetClientTools; a check, a loss callback, a
   failing attempt or an update never does it.
   */
  lemma WhoLeavesDisabled(s: State, l: Label)
    requires Enabled(s, l) && Has(s) && s.entry.value.health == Disabled
    requires Has(Next(s, l)) && Next(s, l).entry.value.ptr == s.entry.value.ptr
    ensures Next(s, l).entry.value.health != Disabled ==> l in {SetTools, EnablePerCall, AddParked, AddPerCall} || Revives(s, l)
    ensures ModesOk(s) && (l in {SetTools, EnablePerCall, AddParked, AddPerCall} || Revives(s, l)) ==> Next(s, l).entry.value.health != Disabled
  {
  }

  /** A disabled entry without tools gets some exactly by the write-back of a check that captured its current generation. */
  lemma WhoGivesADisabledClientTools(s: State, l: Label)
    requires Enabled(s, l) && Has(s) && s.entry.value.health == Disabled && s.entry.value.tools == NoTools
    requires Has(Next(s, l)) && Next(s, l).entry.value.ptr == s.entry.value.ptr && Next(s, l).entry.value.health == Disabled
    ensures Next(s, l).entry.value.tools != NoTools <==> l.WriteBack? && s.checks[l.k].gen == s.entry.value.gen
  {
  }

  /** NeedsReauth gives way, besides, only to a new connection, a failed one and DisableClient. */
  lemma WhoLeavesNeedsReauth(s: State, l: Label)
    requires Enabled(s, l) && Has(s) && s.entry.value.health == NeedsReauth
    requires Has(Next(s, l)) && Next(s, l).entry.value.ptr == s.entry.value.ptr && Next(s, l).entry.value.health != NeedsReauth
    ensures l in {SetTools, EnablePerCall, AddParked, AddPerCall, FirstLock, Commit, Disable} || l.Fail?
  {
  }
}
