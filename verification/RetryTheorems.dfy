/** What every run of the retry loop satisfies, for every behaviour of handler, filter and selector. */
module RetryTheorems {
  import opened Options
  import opened Failures
  import opened EncryptedReasoning
  import opened KeySelectors
  import opened KeyPool
  import opened RetryEngine
  import opened Backoff

  ghost predicate EnvOk(env: Env) { FilterOk(env.filter) && SelectorOk(env.selector) }

  /** Each attempt follows from those before it. */
  lemma {:induction false} FitsAt(job: Job, log: seq<Attempt>, i: nat)
    requires IsRun(job, log) && i < |log|
    ensures IsRun(job, log[..i]) && AttemptFits(job, log[..i], log[i])
    decreases |log|
  {
    hide AttemptFits;
    var n := |log| - 1;
    if i < n {
      FitsAt(job, log[..n], i);
      assert log[..n][..i] == log[..i];
    }
  }

  // ----- what the exclusion sets hold -----

  lemma {:induction false} DeadMeans(job: Job, log: seq<Attempt>, id: string)
    ensures id in DeadIds(job, log) <==> exists i :: 0 <= i < |log| && PermanentlyFailed(log[i]) && log[i].key.id == id
  {
    if log != [] {
      var n := |log| - 1;
      DeadMeans(job, log[..n], id);
      assert forall i :: 0 <= i < n ==> log[..n][i] == log[i];
    }
  }

  /** No reset among the attempts after `i`, up to and including `j`. */
  ghost predicate SameRound(log: seq<Attempt>, i: nat, j: nat) {
    forall k :: i < k <= j && k < |log| ==> log[k].selection != Picked(true)
  }

  /** The used set holds exactly the keys rate-limited since the last reset. */
  lemma {:induction false} UsedMeans(job: Job, log: seq<Attempt>, id: string)
    ensures id in UsedIds(job, log) <==>
            exists i: nat :: i < |log| && RateLimited(job, log[i]) && log[i].key.id == id && SameRound(log, i, |log|)
  {
    hide RateLimited;
    if log != [] {
      var n := |log| - 1;
      var prefix := log[..n];
      UsedMeans(job, prefix, id);
      assert forall i: nat :: i < n ==> prefix[i] == log[i];
      if id in UsedIds(job, log) {
        if RateLimited(job, log[n]) && log[n].key.id == id {
          assert SameRound(log, n, |log|);
        } else {
          var i: nat :| i < n && RateLimited(job, prefix[i]) && prefix[i].key.id == id && SameRound(prefix, i, n);
          assert SameRound(log, i, |log|);
        }
      }
      if i: nat :| i < |log| && RateLimited(job, log[i]) && log[i].key.id == id && SameRound(log, i, |log|) {
        if i < n {
          assert log[n].selection != Picked(true);
          assert SameRound(prefix, i, n);
        }
      }
    }
  }

  // ----- what a selection can return -----

  lemma PassedIn(filter: Filter, n: nat, second: bool, keys: seq<Key>)
    requires FilterOk(filter)
    ensures forall k :: k in Passed(filter(n, second, keys), keys) ==> k in keys
  {
  }

  /** Only live keys of the pool are chosen, and without a reset only keys not yet used in the round. */
  lemma ChosenIsLive(src: Source, env: Env, n: nat, used: set<string>, dead: set<string>)
    requires !src.Keyless? && EnvOk(env)
    ensures var c := Choose(src, env.filter, env.selector, n, used, dead);
            c.Chosen? ==>
              && c.key.id !in dead
              && (src.Rotating? ==> c.key in src.pool && (!c.reset ==> c.key.id !in used))
              && (src.Fixed? ==> c.key == src.key && !c.reset)
  {
    if src.Rotating? {
      PassedIn(env.filter, n, false, Without(src.pool, dead + used));
      PassedIn(env.filter, n, true, Without(src.pool, dead));
    }
  }

  /** A reset happens only when no live, unused key passes the filter. */
  lemma ResetMeansNoneFresh(src: Source, env: Env, n: nat, used: set<string>, dead: set<string>)
    requires src.Rotating?
    ensures Resets(Choose(src, env.filter, env.selector, n, used, dead)) ==> FreshKeys(src.pool, env.filter, n, used, dead) == []
  {
  }

  lemma PickedAt(job: Job, log: seq<Attempt>, j: nat)
    requires IsRun(job, log) && j < |log| && log[j].selection.Picked?
    ensures !job.src.Keyless? && NeedsKey(job, log[..j]) && ChoiceAfter(job, log[..j]) == Chosen(log[j].key, log[j].selection.reset)
  {
    hide IsRun, ChoiceAfter, NeedsKey;
    FitsAt(job, log, j);
  }

  lemma KeptAt(job: Job, log: seq<Attempt>, j: nat)
    requires IsRun(job, log) && j < |log| && !log[j].selection.Picked? && !job.src.Keyless?
    ensures j > 0 && !PerKeyFailed(job, log[j - 1]) && log[j].key == log[j - 1].key
  {
    hide IsRun, ChoiceAfter, PerKeyFailed;
    FitsAt(job, log, j);
  }

  lemma PermanentFailsPerKey(job: Job, a: Attempt)
    requires PermanentlyFailed(a)
    ensures PerKeyFailed(job, a)
  {
    PermanentIsPerKey(job.env.lower, a.reply.failure);
  }

  // ----- dead keys -----

  /**
   A key ID that failed with 401, 402 or 403 is never passed to the provider again: not by a same-key
   retry, not after a pool reset, not by the stripped retry, with a rotating or a fixed provider.
   */
  lemma {:induction false} DeadKeyIsNeverCalledAgain(job: Job, log: seq<Attempt>, i: nat, j: nat)
    requires IsRun(job, log) && EnvOk(job.env) && !job.src.Keyless?
    requires i < j < |log| && PermanentlyFailed(log[i])
    ensures log[j].key.id != log[i].key.id
    decreases j
  {
    hide IsRun, PermanentlyFailed, PerKeyFailed, NeedsKey, EnvOk;
    if log[j].selection.Picked? {
      PickedAt(job, log, j);
      DeadMeans(job, log[..j], log[i].key.id);
      assert log[..j][i] == log[i];
      ChosenIsLive(job.src, job.env, j, UsedIds(job, log[..j]), DeadIds(job, log[..j]));
    } else {
      KeptAt(job, log, j);
      PermanentFailsPerKey(job, log[i]);
      DeadKeyIsNeverCalledAgain(job, log, i, j - 1);
    }
  }

  // ----- rounds -----

  /** Within a round, a rate-limited key is not selected again. */
  lemma NotWithinRound(job: Job, log: seq<Attempt>, i: nat, j: nat)
    requires IsRun(job, log) && EnvOk(job.env) && job.src.Rotating?
    requires i < j < |log| && RateLimited(job, log[i]) && log[j].selection.Picked? && SameRound(log, i, j)
    ensures log[j].key.id != log[i].key.id
  {
    hide IsRun, RateLimited, NeedsKey, EnvOk;
    PickedAt(job, log, j);
    assert log[..j][i] == log[i] && SameRound(log[..j], i, j);
    UsedMeans(job, log[..j], log[i].key.id);
    ChosenIsLive(job.src, job.env, j, UsedIds(job, log[..j]), DeadIds(job, log[..j]));
  }

  /** At attempt `k` the pool was reset, and no live unused key passed the filter then. */
  ghost predicate ResetForced(job: Job, log: seq<Attempt>, k: nat)
    requires job.src.Rotating?
  {
    && k < |log| && log[k].selection == Picked(true)
    && FreshKeys(job.src.pool, job.env.filter, k, UsedIds(job, log[..k]), DeadIds(job, log[..k])) == []
  }

  /** A rate-limited key is selected again only after a reset, which happens only when no live unused key passes the filter. */
  lemma ReuseOnlyWhenNoneIsFresh(job: Job, log: seq<Attempt>, i: nat, j: nat)
    requires IsRun(job, log) && EnvOk(job.env) && job.src.Rotating?
    requires i < j < |log| && RateLimited(job, log[i]) && log[j].selection.Picked? && log[j].key.id == log[i].key.id
    ensures exists k: nat :: i < k <= j && ResetForced(job, log, k)
  {
    hide IsRun, RateLimited, NeedsKey, EnvOk;
    if SameRound(log, i, j) {
      NotWithinRound(job, log, i, j);
    } else {
      var k :| i < k <= j && k < |log| && log[k].selection == Picked(true);
      PickedAt(job, log, k);
      ResetMeansNoneFresh(job.src, job.env, k, UsedIds(job, log[..k]), DeadIds(job, log[..k]));
      assert ResetForced(job, log, k);
    }
  }

  /** A selected key is excluded, or still in use, for the rest of its round. */
  lemma {:induction false} StaysExcluded(job: Job, log: seq<Attempt>, i: nat, n: nat)
    requires IsRun(job, log) && !job.src.Keyless?
    requires i < n <= |log| && log[i].selection.Picked? && SameRound(log, i, n - 1)
    ensures || log[i].key.id in UsedIds(job, log[..n]) + DeadIds(job, log[..n])
            || (log[n - 1].key == log[i].key && !PerKeyFailed(job, log[n - 1]))
    decreases n
  {
    hide IsRun, IsPerKey, IsPermanent;
    assert log[..n][..n - 1] == log[..n - 1];
    if n > i + 1 {
      StaysExcluded(job, log, i, n - 1);
      if log[n - 1].selection.Picked? { PickedAt(job, log, n - 1); } else { KeptAt(job, log, n - 1); }
    }
  }

  /** Selections between two resets are pairwise distinct. */
  lemma RoundIsDistinct(job: Job, log: seq<Attempt>, i: nat, j: nat)
    requires IsRun(job, log) && EnvOk(job.env) && job.src.Rotating?
    requires i < j < |log| && log[i].selection.Picked? && log[j].selection.Picked? && SameRound(log, i, j)
    ensures log[i].key.id != log[j].key.id
  {
    hide IsRun, PerKeyFailed, EnvOk, UsedIds, DeadIds, Choose;
    StaysExcluded(job, log, i, j);
    PickedAt(job, log, j);
    ChosenIsLive(job.src, job.env, j, UsedIds(job, log[..j]), DeadIds(job, log[..j]));
  }

  ghost predicate NoFilter(env: Env) {
    forall n, second, keys: seq<Key> :: env.filter(n, second, keys) == Unfiltered
  }

  /** Without a filter, every live key has been rate-limited in the round before any key is reused. */
  lemma WholePoolBeforeReuse(job: Job, log: seq<Attempt>, j: nat, key: Key)
    requires IsRun(job, log) && NoFilter(job.env) && job.src.Rotating? && j < |log| && log[j].selection == Picked(true)
    requires key in job.src.pool && key.id !in DeadIds(job, log[..j])
    ensures exists i: nat :: i < j && RateLimited(job, log[i]) && log[i].key.id == key.id && SameRound(log, i, j - 1)
  {
    hide IsRun, RateLimited, NeedsKey, UsedIds, DeadIds;
    PickedAt(job, log, j);
    var used, dead := UsedIds(job, log[..j]), DeadIds(job, log[..j]);
    ResetMeansNoneFresh(job.src, job.env, j, used, dead);
    assert key in Without(job.src.pool, dead + used) <==> key.id !in used;
    UsedMeans(job, log[..j], key.id);
    var i: nat :| i < j && RateLimited(job, log[..j][i]) && log[..j][i].key.id == key.id && SameRound(log[..j], i, j);
    assert forall k :: i < k < j ==> log[..j][k] == log[k];
  }

  // ----- running out of keys -----

  function PoolOf(src: Source): seq<Key> {
    match src
    case Keyless => []
    case Fixed(key) => [key]
    case Rotating(pool) => pool
  }

  ghost predicate AllAreDead(job: Job, log: seq<Attempt>) {
    forall k :: k in PoolOf(job.src) ==> k.id in DeadIds(job, log)
  }

  /** The filter lets no live key of the pool through, on either pass. */
  predicate FilterRejects(job: Job, log: seq<Attempt>) {
    match job.src
    case Keyless => false
    case Fixed(key) => Passed(job.env.filter(|log|, false, [key]), [key]) == []
    case Rotating(pool) =>
      && FreshKeys(pool, job.env.filter, |log|, UsedIds(job, log), DeadIds(job, log)) == []
      && LiveKeys(pool, job.env.filter, |log|, DeadIds(job, log)) == []
  }

  lemma NoneWithout(pool: seq<Key>, ids: set<string>)
    ensures Without(pool, ids) == [] <==> forall k :: k in pool ==> k.id in ids
  {
    if Without(pool, ids) != [] { assert Without(pool, ids)[0] in Without(pool, ids); }
  }

  lemma NoneLetThrough(filter: Filter, n: nat, second: bool, keys: seq<Key>)
    requires FilterOk(filter) && keys == []
    ensures Passed(filter(n, second, keys), keys) == []
  {
    var kept := Passed(filter(n, second, keys), keys);
    if kept != [] {
      assert kept[0] in kept;
      PassedIn(filter, n, second, keys);
    }
  }

  lemma ChoiceMeans(job: Job, log: seq<Attempt>)
    requires EnvOk(job.env) && !job.src.Keyless?
    ensures ChoiceAfter(job, log).AllDead? <==> AllAreDead(job, log)
    ensures ChoiceAfter(job, log).AllFiltered? <==> !AllAreDead(job, log) && FilterRejects(job, log)
  {
    hide UsedIds, DeadIds;
    var used, dead := UsedIds(job, log), DeadIds(job, log);
    if job.src.Rotating? {
      var pool := job.src.pool;
      NoneWithout(pool, dead);
      NoneWithout(pool, dead + used);
      if Without(pool, dead) == [] {
        NoneLetThrough(job.env.filter, |log|, true, Without(pool, dead));
        NoneLetThrough(job.env.filter, |log|, false, Without(pool, dead + used));
      }
    }
  }

  /** The 502 comes exactly when a key is due and every key of the pool has failed for good. */
  lemma ExhaustedIff(job: Job, log: seq<Attempt>, outcome: Outcome)
    requires EnvOk(job.env) && EndsWith(job, log, outcome)
    ensures outcome == Exhausted <==> !job.src.Keyless? && IsDue(job, log) && NeedsKey(job, log) && AllAreDead(job, log)
  {
    hide IsDue, NeedsKey, AllAreDead, ChoiceAfter;
    if !job.src.Keyless? { ChoiceMeans(job, log); }
  }

  /** The 429 comes exactly when a key is due and some key is live, but the filter rejects every live key. */
  lemma NoEligibleIff(job: Job, log: seq<Attempt>, outcome: Outcome)
    requires EnvOk(job.env) && EndsWith(job, log, outcome)
    ensures outcome == NoEligible <==>
            !job.src.Keyless? && IsDue(job, log) && NeedsKey(job, log) && !AllAreDead(job, log) && FilterRejects(job, log)
  {
    hide IsDue, NeedsKey, AllAreDead, ChoiceAfter;
    if !job.src.Keyless? { ChoiceMeans(job, log); }
  }

  /** A stripped attempt is not a permanent failure, so each dead key costs an attempt of the budget. */
  lemma {:induction false} DeadCount(job: Job, log: seq<Attempt>)
    requires IsRun(job, log)
    ensures |DeadIds(job, log)| + Strips(log) <= |log|
  {
    hide AttemptFits, PermanentlyFailed;
    if log != [] {
      var n := |log| - 1;
      DeadCount(job, log[..n]);
      if log[n].strip { StripIsNotPermanent(job, log[..n], log[n]); }
    }
  }

  lemma StripIsNotPermanent(job: Job, before: seq<Attempt>, a: Attempt)
    requires AttemptFits(job, before, a) && a.strip
    ensures !PermanentlyFailed(a) && !PerKeyFailed(job, a)
  {
    hide IsDue, KeyFits, WaitBefore, InputAfter;
    if IsPermanent(a.reply.failure) { PermanentIsPerKey(job.env.lower, a.reply.failure); }
  }

  lemma SubsetSize(a: set<string>, b: set<string>)
    requires a <= b
    ensures |a| <= |b|
  {
    assert b == a + (b - a);
  }

  /** So the 502 needs a pool of at most `maxRetries` distinct key IDs. */
  lemma ExhaustedNeedsBudget(job: Job, log: seq<Attempt>)
    requires IsRun(job, log) && EnvOk(job.env) && EndsWith(job, log, Exhausted)
    ensures |Ids(PoolOf(job.src))| <= job.maxRetries
  {
    hide IsRun, EndsWith, GoesOn, NeedsKey, DeadIds, EnvOk;
    ExhaustedIff(job, log, Exhausted);
    DeadCount(job, log);
    SubsetSize(Ids(PoolOf(job.src)), DeadIds(job, log));
    if log == [] { NoneDeadYet(job); }
  }

  lemma NoneDeadYet(job: Job)
    ensures DeadIds(job, []) == {} && Strips([]) == 0
  {
  }

  // ----- how many calls -----

  /** At most `maxRetries + 1` calls, and one more only after ciphertext was stripped, which happens at most once. */
  lemma {:induction false} CallsAreBounded(job: Job, log: seq<Attempt>)
    requires IsRun(job, log)
    ensures Strips(log) <= 1 && |log| <= job.maxRetries + 1 + Strips(log)
  {
    hide KeyFits, WaitBefore, InputAfter, GoesOn, IsRetryable, IsCiphertextRejection, HasCiphertext, IsHalting;
    if log != [] {
      CallsAreBounded(job, log[..|log| - 1]);
    }
  }

  /** A strip answers a 400 for ciphertext that was there, and grants the same key one more call at once, without ciphertext. */
  lemma StripIsRetried(job: Job, log: seq<Attempt>, outcome: Outcome, i: nat)
    requires IsRun(job, log) && EndsWith(job, log, outcome) && i < |log| && log[i].strip
    ensures log[i].reply.Failed? && log[i].reply.failure.status == Some(400) && HasCiphertext(log[i].input)
    ensures i + 1 < |log| && log[i + 1].key == log[i].key && log[i + 1].wait == None
    ensures log[i + 1].input == Stripped(log[i].input) && !HasCiphertext(log[i + 1].input)
  {
    hide IsRun, KeyFits, IsRetryable, HasCiphertext, Stripped, IsHalting, Contains, PerKeyFailed;
    LastIsNoStrip(job, log, outcome);
    FitsAt(job, log, i);
    FitsAt(job, log, i + 1);
    StripIsNotPermanent(job, log[..i], log[i]);
    StripsAll(log[i].input);
    SameKeyAfter(job, log, i);
  }

  lemma LastIsNoStrip(job: Job, log: seq<Attempt>, outcome: Outcome)
    requires IsRun(job, log) && EndsWith(job, log, outcome) && log != []
    ensures !log[|log| - 1].strip
  {
    hide KeyFits, WaitBefore, InputAfter, IsRetryable, IsCiphertextRejection, HasCiphertext, IsHalting, PerKeyFailed;
    var n := |log| - 1;
    CallsAreBounded(job, log[..n]);
    if log[n].strip { StripIsNotPermanent(job, log[..n], log[n]); }
  }

  lemma SameKeyAfter(job: Job, log: seq<Attempt>, i: nat)
    requires i + 1 < |log| && !PerKeyFailed(job, log[i]) && KeyFits(job, log[..i + 1], log[i + 1])
    requires KeyFits(job, log[..i], log[i])
    ensures log[i + 1].key == log[i].key
  {
    assert log[..i + 1][i] == log[i];
  }

  // ----- backoff -----

  /**
   No sleep follows a permanent key failure, because the dead key cannot be picked again; every other
   retry but the stripped one sleeps, with the exponent of its own number.
   */
  lemma SleepsIff(job: Job, log: seq<Attempt>, i: nat)
    requires IsRun(job, log) && EnvOk(job.env) && 0 < i < |log|
    ensures log[i].wait ==
            if log[i - 1].strip || (!job.src.Keyless? && PermanentlyFailed(log[i - 1])) then None else Some(i - 1)
  {
    hide IsRun, PermanentlyFailed, EnvOk, StripsNow, IsDue;
    FitsAt(job, log, i);
    FitsAt(job, log, i - 1);
    assert log[..i][i - 1] == log[i - 1];
    if !job.src.Keyless? && PermanentlyFailed(log[i - 1]) {
      DeadKeyIsNeverCalledAgain(job, log, i - 1, i);
    }
  }

  lemma FirstNeverSleeps(job: Job, log: seq<Attempt>)
    requires IsRun(job, log) && log != []
    ensures log[0].wait == None
  {
    hide IsRun, KeyFits, StripsNow, IsDue;
    FitsAt(job, log, 0);
  }

  /** The delays slept in a run, for given jitter. */
  function Delays(log: seq<Attempt>, initial: int, max: int, jitter: nat -> real): seq<int> {
    if log == [] then []
    else
      var a := log[|log| - 1];
      Delays(log[..|log| - 1], initial, max, jitter)
      + if a.wait.Some? then [Delay(initial, max, a.wait.value, jitter(|log|))] else []
  }

  lemma {:induction false} DelaysBound(job: Job, log: seq<Attempt>, initial: int, max: int, jitter: nat -> real)
    requires IsRun(job, log)
    ensures |Delays(log, initial, max, jitter)| <= if log == [] then 0 else |log| - 1
    ensures forall i :: 0 <= i < |Delays(log, initial, max, jitter)| ==> Delays(log, initial, max, jitter)[i] <= max
  {
    hide AttemptFits, Delay;
    if log != [] {
      DelaysBound(job, log[..|log| - 1], initial, max, jitter);
      var a := log[|log| - 1];
      if a.wait.Some? { NeverAboveMax(initial, max, a.wait.value, jitter(|log|)); }
      if |log| == 1 { FirstNeverSleeps(job, log); }
    }
  }

  lemma Scale(a: int, b: int, c: nat)
    requires a <= b
    ensures a * c <= b * c
  {
  }

  /** The total time slept is at most the number of retries times the configured maximum. */
  lemma TotalWaitIsBounded(job: Job, log: seq<Attempt>, initial: int, max: nat, jitter: nat -> real)
    requires IsRun(job, log) && log != []
    ensures TotalWait(Delays(log, initial, max, jitter)) <= (|log| - 1) * max
    ensures |log| - 1 <= job.maxRetries + Strips(log)
  {
    hide IsRun, Delays;
    DelaysBound(job, log, initial, max, jitter);
    TotalWaitBound(Delays(log, initial, max, jitter), max);
    CallsAreBounded(job, log);
    Scale(|Delays(log, initial, max, jitter)|, |log| - 1, max);
  }

  // ----- the attempt trail -----

  /**
   One record per call, every non-final one with a fail reason, and a record is flagged as rotated if
   and only if the next record exists with a different key ID.
   */
  lemma TrailIsComplete(job: Job, log: seq<Attempt>, i: nat)
    requires IsRun(job, log) && !job.src.Keyless? && i < |log|
    ensures |TrailOf(job, log)| == |log| && TrailOf(job, log)[i].attempt == i && TrailOf(job, log)[i].key == log[i].key
    ensures i + 1 < |log| ==> TrailOf(job, log)[i].reason.Some?
    ensures TrailOf(job, log)[i].rotated <==>
            i + 1 < |TrailOf(job, log)| && TrailOf(job, log)[i + 1].key.id != TrailOf(job, log)[i].key.id
  {
    hide IsRun, KeyFits, StripsNow, WaitBefore, InputAfter, FailReason;
    if i + 1 < |log| { FitsAt(job, log, i + 1); }
  }

  /** A flagged record failed in a way bound to its key. */
  lemma RotationHasCause(job: Job, log: seq<Attempt>, i: nat)
    requires IsRun(job, log) && !job.src.Keyless? && i < |log| && TrailOf(job, log)[i].rotated
    ensures PerKeyFailed(job, log[i])
  {
    hide IsRun, PerKeyFailed;
    FitsAt(job, log, i + 1);
    assert log[..i + 1][i] == log[i];
  }

  // ----- the specification leaves no choice -----

  lemma NextIsUnique(job: Job, before: seq<Attempt>, a: Attempt, b: Attempt)
    requires AttemptFits(job, before, a) && AttemptFits(job, before, b)
    ensures a == b
  {
    hide IsDue, IsRetryable, IsCiphertextRejection, HasCiphertext, Stripped, Choose, PerKeyFailed, IsHalting;
  }

  lemma {:induction false} PrefixesAgree(job: Job, log: seq<Attempt>, other: seq<Attempt>, k: nat)
    requires IsRun(job, log) && IsRun(job, other) && k <= |log| && k <= |other|
    ensures log[..k] == other[..k]
  {
    hide IsRun, AttemptFits;
    if k > 0 {
      PrefixesAgree(job, log, other, k - 1);
      FitsAt(job, log, k - 1);
      FitsAt(job, other, k - 1);
      NextIsUnique(job, log[..k - 1], log[k - 1], other[k - 1]);
      assert log[..k] == log[..k - 1] + [log[k - 1]] && other[..k] == other[..k - 1] + [other[k - 1]];
    }
  }

  /** A complete run cannot be continued. */
  lemma CompleteIsMaximal(job: Job, log: seq<Attempt>, outcome: Outcome, other: seq<Attempt>)
    requires IsRun(job, log) && EndsWith(job, log, outcome) && IsRun(job, other)
    ensures |other| <= |log|
  {
    hide IsRun, ChoiceAfter, GoesOn, PerKeyFailed, WaitBefore, InputAfter, StripsNow;
    if |log| < |other| {
      PrefixesAgree(job, log, other, |log|);
      assert log[..|log|] == log;
      FitsAt(job, other, |log|);
    }
  }

  /** Attempts and outcome are determined by the job. */
  lemma RunsAreUnique(job: Job, log: seq<Attempt>, outcome: Outcome, log': seq<Attempt>, outcome': Outcome)
    requires IsRun(job, log) && EndsWith(job, log, outcome)
    requires IsRun(job, log') && EndsWith(job, log', outcome')
    ensures log == log' && outcome == outcome'
  {
    hide IsRun, IsDue, NeedsKey, ChoiceAfter;
    CompleteIsMaximal(job, log, outcome, log');
    CompleteIsMaximal(job, log', outcome', log);
    PrefixesAgree(job, log, log', |log|);
    assert log[..|log|] == log && log'[..|log|] == log';
  }
}
