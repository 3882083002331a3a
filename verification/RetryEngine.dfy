/**
 executeRequestWithRetries: the retry loop of one request, with key rotation, conditional backoff, an
 attempt trail that is completed one iteration late, and a one-shot extra attempt. The provider's
 handler, the pool filter and the key selector are foreign code, asked with the attempt number.
 */
module RetryEngine {
  import opened Options
  import opened Failures
  import opened EncryptedReasoning
  import opened KeySelectors
  import opened KeyPool

  datatype Reply = Success(body: string) | Failed(failure: Failure)

  datatype Env = Env(
    lower: Lower, filter: Filter, selector: Selector, handler: (nat, Key, seq<Item>) -> Reply)

  /** One request: its retry budget, its keys, its input and whether that input may be rewritten. */
  datatype Job = Job(maxRetries: nat, src: Source, input: seq<Item>, canStrip: bool, env: Env)

  datatype Selection = NoSelection | Picked(reset: bool)

  /**
   One handler call with what preceded it: how its key was chosen, the backoff slept first (the
   exponent, if any), the input sent, the reply, and whether ciphertext was stripped afterwards.
   */
  datatype Attempt = Attempt(
    key: Key, selection: Selection, wait: Option<nat>, input: seq<Item>, reply: Reply, strip: bool)

  datatype Record = Record(attempt: nat, key: Key, reason: Option<string>, rotated: bool)

  /** `Done` is the last reply, `Exhausted` the 502, `NoEligible` the 429, `SelectionError` any other selection failure. */
  datatype Outcome = Done(reply: Reply) | Exhausted | NoEligible | SelectionError

  // ----- the specification -----

  predicate PerKeyFailed(job: Job, a: Attempt) { a.reply.Failed? && IsPerKey(job.env.lower, a.reply.failure) }

  predicate PermanentlyFailed(a: Attempt) { a.reply.Failed? && IsPermanent(a.reply.failure) }

  predicate RateLimited(job: Job, a: Attempt) { PerKeyFailed(job, a) && !PermanentlyFailed(a) }

  /** The loop goes round again, budget permitting. */
  predicate GoesOn(job: Job, a: Attempt) {
    a.reply.Failed? && !IsHalting(a.reply.failure) && (IsRetryable(job.env.lower, a.reply.failure) || a.strip)
  }

  function Strips(log: seq<Attempt>): nat {
    if log == [] then 0 else Strips(log[..|log| - 1]) + if log[|log| - 1].strip then 1 else 0
  }

  /** Another attempt is due after `log`. */
  predicate IsDue(job: Job, log: seq<Attempt>) {
    log == [] || (GoesOn(job, log[|log| - 1]) && |log| <= job.maxRetries + Strips(log))
  }

  predicate NeedsKey(job: Job, log: seq<Attempt>) { log == [] || PerKeyFailed(job, log[|log| - 1]) }

  /** Keys that failed for good. */
  function DeadIds(job: Job, log: seq<Attempt>): set<string> {
    if log == [] then {}
    else DeadIds(job, log[..|log| - 1]) + if PermanentlyFailed(log[|log| - 1]) then {log[|log| - 1].key.id} else {}
  }

  /** Keys rate-limited since the last reset. */
  function UsedIds(job: Job, log: seq<Attempt>): set<string> {
    if log == [] then {}
    else
      var a := log[|log| - 1];
      (if a.selection == Picked(true) then {} else UsedIds(job, log[..|log| - 1]))
      + if RateLimited(job, a) then {a.key.id} else {}
  }

  function ChoiceAfter(job: Job, log: seq<Attempt>): Choice
    requires !job.src.Keyless?
  {
    Choose(job.src, job.env.filter, job.env.selector, |log|, UsedIds(job, log), DeadIds(job, log))
  }

  predicate KeyFits(job: Job, before: seq<Attempt>, a: Attempt) {
    if job.src.Keyless? then a.key == NO_KEY && a.selection == NoSelection
    else if NeedsKey(job, before) then a.selection.Picked? && ChoiceAfter(job, before) == Chosen(a.key, a.selection.reset)
    else a.key == before[|before| - 1].key && a.selection == NoSelection
  }

  function WaitBefore(before: seq<Attempt>, key: Key): Option<nat> {
    if before == [] then None
    else
      var a := before[|before| - 1];
      if a.strip || (PermanentlyFailed(a) && a.key.id != key.id) then None else Some(|before| - 1)
  }

  function InputAfter(job: Job, before: seq<Attempt>): seq<Item> {
    if before == [] then job.input
    else
      var a := before[|before| - 1];
      if a.strip then Stripped(a.input) else a.input
  }

  predicate StripsNow(job: Job, before: seq<Attempt>, a: Attempt) {
    && a.reply.Failed? && !IsHalting(a.reply.failure) && !IsRetryable(job.env.lower, a.reply.failure)
    && Strips(before) == 0 && IsCiphertextRejection(job.env.lower, a.reply.failure)
    && job.canStrip && HasCiphertext(a.input)
  }

  predicate AttemptFits(job: Job, before: seq<Attempt>, a: Attempt) {
    && IsDue(job, before) && KeyFits(job, before, a)
    && a.wait == WaitBefore(before, a.key)
    && a.input == InputAfter(job, before)
    && a.reply == job.env.handler(|before|, a.key, a.input)
    && a.strip == StripsNow(job, before, a)
  }

  /** `log` is a run of the job's first attempts, each following from those before it. */
  predicate IsRun(job: Job, log: seq<Attempt>) {
    log == [] || (IsRun(job, log[..|log| - 1]) && AttemptFits(job, log[..|log| - 1], log[|log| - 1]))
  }

  /** `log` is all the attempts there are, and `outcome` what the request ends with. */
  predicate EndsWith(job: Job, log: seq<Attempt>, outcome: Outcome) {
    if IsDue(job, log) then
      && !job.src.Keyless? && NeedsKey(job, log)
      && match ChoiceAfter(job, log)
         case AllDead => outcome == Exhausted
         case AllFiltered => outcome == NoEligible
         case SelectorFailed(_) => outcome == SelectionError
         case Chosen(_, _) => false
    else outcome == Done(log[|log| - 1].reply)
  }

  function ReasonOf(a: Attempt): Option<string> {
    if a.reply.Failed? && !IsHalting(a.reply.failure) then Some(FailReason(a.reply.failure)) else None
  }

  predicate RotatedAt(log: seq<Attempt>, i: nat) {
    i + 1 < |log| && log[i].key.id != log[i + 1].key.id
  }

  /** One record per attempt; the rotation flag looks one attempt ahead. */
  function TrailOf(job: Job, log: seq<Attempt>): seq<Record> {
    if job.src.Keyless? then []
    else seq(|log|, i requires 0 <= i < |log| => Record(i, log[i].key, ReasonOf(log[i]), RotatedAt(log, i)))
  }

  // ----- the loop -----

  lemma RunGrows(job: Job, log: seq<Attempt>, a: Attempt)
    requires IsRun(job, log) && AttemptFits(job, log, a)
    ensures IsRun(job, log + [a])
  {
    assert (log + [a])[..|log|] == log;
  }

  lemma SetsGrow(job: Job, log: seq<Attempt>, a: Attempt)
    ensures DeadIds(job, log + [a]) == DeadIds(job, log) + if PermanentlyFailed(a) then {a.key.id} else {}
    ensures UsedIds(job, log + [a]) ==
            (if a.selection == Picked(true) then {} else UsedIds(job, log)) + if RateLimited(job, a) then {a.key.id} else {}
    ensures Strips(log + [a]) == Strips(log) + if a.strip then 1 else 0
  {
    assert (log + [a])[..|log|] == log;
  }

  /** The rotation flag of the last record is settled when the next attempt's key is known. */
  function Flagged(trail: seq<Record>, key: Key): seq<Record> {
    if trail == [] then []
    else
      var n := |trail| - 1;
      trail[n := trail[n].(rotated := trail[n].key.id != key.id)]
  }

  lemma TrailGrows(job: Job, log: seq<Attempt>, a: Attempt)
    requires !job.src.Keyless?
    ensures TrailOf(job, log + [a]) == Flagged(TrailOf(job, log), a.key) + [Record(|log|, a.key, ReasonOf(a), false)]
  {
    if log != [] {
      var n := |log| - 1;
      assert (log + [a])[n] == log[n] && (log + [a])[n + 1] == a;
    }
  }

  /** Adding a record with its reason left open, then filling it in, gives the trail of the longer log. */
  lemma TrailFilled(job: Job, log: seq<Attempt>, a: Attempt, trail: seq<Record>)
    requires if job.src.Keyless? then trail == [] else trail == Flagged(TrailOf(job, log), a.key) + [Record(|log|, a.key, None, false)]
    ensures TrailOf(job, log + [a]) ==
            if ReasonOf(a).Some? && |trail| > 0 then trail[|trail| - 1 := trail[|trail| - 1].(reason := ReasonOf(a))] else trail
  {
    hide Flagged, ReasonOf;
    if !job.src.Keyless? { TrailGrows(job, log, a); }
  }

  lemma TrailShape(job: Job, log: seq<Attempt>)
    ensures |TrailOf(job, log)| == if job.src.Keyless? then 0 else |log|
    ensures !job.src.Keyless? && log != [] ==>
              var n := |log| - 1; TrailOf(job, log)[n].key == log[n].key && !TrailOf(job, log)[n].rotated
  {
  }

  lemma SameKeyFlagsNothing(trail: seq<Record>, key: Key)
    requires trail != [] ==> trail[|trail| - 1].key == key && !trail[|trail| - 1].rotated
    ensures Flagged(trail, key) == trail
  {
  }

  lemma NothingYet(job: Job)
    ensures IsRun(job, []) && Strips([]) == 0 && TrailOf(job, []) == [] && UsedIds(job, []) == {} && DeadIds(job, []) == {}
  {
  }

  lemma PermanentIsPerKey(lower: Lower, f: Failure)
    requires IsPermanent(f)
    ensures IsPerKey(lower, f) && IsRetryable(lower, f)
  {
  }

  /** Key selection at the head of attempt `n`, with the late flag in the trail. */
  method NextKey(job: Job, n: nat, used: set<string>, dead: set<string>, trail: seq<Record>, pending: int)
    returns (choice: Choice, used': set<string>, trail': seq<Record>)
    requires !job.src.Keyless?
    requires pending == |trail| - 1 && (trail != [] ==> !trail[pending].rotated)
    ensures choice == Choose(job.src, job.env.filter, job.env.selector, n, used, dead)
    ensures choice.Chosen? ==> used' == (if choice.reset then {} else used) && trail' == Flagged(trail, choice.key)
    ensures !choice.Chosen? ==> trail' == trail
  {
    hide Choose;
    trail' := trail;
    choice, used' := SelectKey(job.src, job.env.filter, job.env.selector, n, used, dead);
    if choice.Chosen? && pending >= 0 && trail[pending].key.id != choice.key.id {
      trail' := trail[pending := trail[pending].(rotated := true)];
    }
  }

  /** The fail-soft for rejected ciphertext: at most once per request, and only if there is some. */
  method FailSoft(job: Job, stripped: bool, f: Failure, input: seq<Item>) returns (strip: bool, input': seq<Item>)
    ensures strip == (!IsRetryable(job.env.lower, f) && !stripped && IsCiphertextRejection(job.env.lower, f) && job.canStrip && HasCiphertext(input))
    ensures input' == if strip then Stripped(input) else input
  {
    hide IsRetryable, IsCiphertextRejection, HasCiphertext, Stripped;
    strip, input' := false, input;
    if !IsRetryable(job.env.lower, f) && !stripped && IsCiphertextRejection(job.env.lower, f) && job.canStrip {
      var changed, output := Strip(input);
      if changed {
        strip, input' := true, output;
      }
    }
  }

  /** Bookkeeping after a retryable failure: which set excludes the key from now on. */
  method Exclude(job: Job, key: Key, f: Failure, used: set<string>, dead: set<string>)
    returns (permanent: bool, used': set<string>, dead': set<string>)
    requires !job.src.Keyless?
    ensures permanent == IsPermanent(f)
    ensures dead' == dead + if IsPermanent(f) then {key.id} else {}
    ensures used' == used + if IsPerKey(job.env.lower, f) && !IsPermanent(f) then {key.id} else {}
  {
    hide IsPerKey, IsPermanent;
    if IsPermanent(f) { PermanentIsPerKey(job.env.lower, f); }
    permanent, used', dead' := false, used, dead;
    if IsPerKey(job.env.lower, f) {
      permanent := IsPermanent(f);
      if permanent {
        dead' := dead + {key.id};
      } else {
        used' := used + {key.id};
      }
    }
  }

  /** What the loop remembers about the previous attempt. */
  predicate Remembers(job: Job, a: Attempt, reply: Reply, key: Key, perKey: bool, permanent: bool, strip: bool) {
    && a.reply == reply && a.key == key && a.strip == strip
    && perKey == PerKeyFailed(job, a)
    && permanent == (!job.src.Keyless? && PermanentlyFailed(a))
    && GoesOn(job, a)
  }

  /** The backoff before attempt `n`, as the exponent handed to calculateBackoff. */
  method Pause(job: Job, ghost log: seq<Attempt>, n: nat, key: Key, previousKeyId: string, permanent: bool, strip: bool)
    returns (wait: Option<nat>)
    requires |log| == n
    requires n > 0 ==> var a := log[n - 1]; a.key.id == previousKeyId && a.strip == strip && permanent == (!job.src.Keyless? && PermanentlyFailed(a))
    requires job.src.Keyless? && n > 0 ==> key == log[n - 1].key
    ensures wait == WaitBefore(log, key)
  {
    wait := None;
    if n > 0 {
      var keyChanged := !job.src.Keyless? && key.id != previousKeyId;
      if !((permanent && keyChanged) || strip) {
        wait := Some(n - 1);
      }
    }
  }

  /** The handler call of attempt `n`, with the fail-soft that may follow it. */
  method Try(job: Job, ghost log: seq<Attempt>, n: nat, key: Key, selection: Selection, wait: Option<nat>, input: seq<Item>, stripped: bool)
    returns (a: Attempt, input': seq<Item>)
    requires |log| == n && IsDue(job, log) && KeyFits(job, log, Attempt(key, selection, wait, input, Success(""), false))
    requires wait == WaitBefore(log, key) && input == InputAfter(job, log) && (stripped <==> Strips(log) > 0)
    ensures AttemptFits(job, log, a) && a.key == key && a.selection == selection
    ensures input' == InputAfter(job, log + [a])
  {
    hide IsRetryable, IsCiphertextRejection, HasCiphertext, Stripped, IsDue, Choose, WaitBefore;
    var reply := job.env.handler(n, key, input);
    var strip := false;
    input' := input;
    if reply.Failed? && !IsHalting(reply.failure) {
      strip, input' := FailSoft(job, stripped, reply.failure, input);
    }
    a := Attempt(key, selection, wait, input, reply, strip);
  }

  method Execute(job: Job) returns (outcome: Outcome, log: seq<Attempt>, trail: seq<Record>)
    ensures IsRun(job, log) && EndsWith(job, log, outcome)
    ensures trail == TrailOf(job, log)
  {
    hide IsRun, TrailOf, DeadIds, UsedIds, Strips, Choose, IsPerKey, IsRetryable, IsCiphertextRejection, IsCancelled, IsPermanent;
    hide FailReason, Stripped, HasCiphertext, Flagged;
    NothingYet(job);
    log, trail := [], [];
    var reply := Success("");
    var input := job.input;
    var currentKey := NO_KEY;
    var used: set<string>, dead: set<string> := {}, {};
    var lastWasPerKey, lastWasPermanent := false, false;
    var previousKeyId := "";
    var pending := -1;
    var extra := 0;
    var stripped, lastWasStrip := false, false;
    var attempts := 0;

    while attempts <= job.maxRetries + extra
      invariant |log| == attempts && IsRun(job, log) && trail == TrailOf(job, log)
      invariant extra == Strips(log) && 0 <= extra <= 1 && (stripped <==> extra == 1)
      invariant input == InputAfter(job, log)
      invariant !job.src.Keyless? ==> used == UsedIds(job, log) && dead == DeadIds(job, log)
      invariant job.src.Keyless? ==> currentKey == NO_KEY
      invariant attempts > 0 ==> previousKeyId == currentKey.id
      invariant attempts > 0 ==> Remembers(job, log[attempts - 1], reply, currentKey, lastWasPerKey, lastWasPermanent, lastWasStrip)
      invariant pending ==
                  if !job.src.Keyless? && attempts > 0 && lastWasPerKey && attempts <= job.maxRetries + extra then attempts - 1 else -1
      decreases job.maxRetries + extra - attempts + if stripped then 0 else 2
    {
      TrailShape(job, log);
      var selection := NoSelection;
      if !job.src.Keyless? && (attempts == 0 || lastWasPerKey) {
        var choice, used', trail' := NextKey(job, attempts, used, dead, trail, pending);
        if !choice.Chosen? {
          outcome := if choice.AllFiltered? then NoEligible else if choice.AllDead? then Exhausted else SelectionError;
          return;
        }
        currentKey, used, trail, pending := choice.key, used', trail', -1;
        selection := Picked(choice.reset);
      } else {
        SameKeyFlagsNothing(trail, currentKey);
      }
      if !job.src.Keyless? {
        trail := trail + [Record(attempts, currentKey, None, false)];
      }
      var wait := Pause(job, log, attempts, currentKey, previousKeyId, lastWasPermanent, lastWasStrip);
      var a;
      a, input := Try(job, log, attempts, currentKey, selection, wait, input, stripped);
      RunGrows(job, log, a);
      SetsGrow(job, log, a);
      TrailFilled(job, log, a, trail);
      log := log + [a];
      TrailShape(job, log);
      reply, lastWasStrip := a.reply, a.strip;
      if reply.Success? || IsHalting(reply.failure) {
        break;
      }
      if |trail| > 0 {
        trail := trail[|trail| - 1 := trail[|trail| - 1].(reason := Some(FailReason(reply.failure)))];
      }
      if lastWasStrip {
        stripped, extra := true, extra + 1;
      }
      if !(IsRetryable(job.env.lower, reply.failure) || lastWasStrip) {
        break;
      }
      lastWasPerKey := IsPerKey(job.env.lower, reply.failure);
      lastWasPermanent := false;
      if !job.src.Keyless? {
        lastWasPermanent, used, dead := Exclude(job, currentKey, reply.failure, used, dead);
      }
      previousKeyId := currentKey.id;
      if lastWasPerKey && !job.src.Keyless? && attempts < job.maxRetries + extra && |trail| > 0 {
        pending := |trail| - 1;
      }
      attempts := attempts + 1;
    }
    outcome := Done(reply);
  }
}
