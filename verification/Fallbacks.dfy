/** handleRequest: the primary provider, then the configured fallbacks in order. */
module Fallbacks {
  import opened Options
  import opened Failures

  datatype Fallback = Fallback(provider: string, model: string)

  /** What tryRequest returned for one attempt. */
  datatype Tried = Served(body: string) | Refused(failure: Failure)

  /** `Panicked`: the check after a failed fallback reads the error field without a nil check. */
  datatype Answer = Response(body: string) | Error(failure: Failure) | Panicked

  /** Attempt 0 is the primary, attempt i + 1 the i-th fallback. */
  type Attempts = nat -> Tried

  predicate ForbidsFallbacks(f: Failure) { IsCancelled(f) || f.allowFallbacks == Some(false) }

  /** shouldTryFallbacks, for a failed primary. */
  predicate TriesFallbacks(fallbacks: seq<Fallback>, f: Failure) { !ForbidsFallbacks(f) && fallbacks != [] }

  /** After this attempt the next one is tried. */
  predicate Continues(n: nat, t: Tried) {
    t.Refused? && !ForbidsFallbacks(t.failure) && (n > 0 ==> t.failure.detail.Some?)
  }

  /** The attempts due among the primary and the first `n` fallbacks: those with a provider config, in order. */
  function Due(fallbacks: seq<Fallback>, configured: Fallback -> bool, n: nat): seq<nat>
    requires n <= |fallbacks|
  {
    if n == 0 then [0] else Due(fallbacks, configured, n - 1) + if configured(fallbacks[n - 1]) then [n] else []
  }

  /** What the last attempt made decides; when it decides nothing, the primary's error is returned. */
  function Decision(attempts: Attempts, last: nat): Answer {
    match attempts(last)
    case Served(body) => Response(body)
    case Refused(f) =>
      if last > 0 && f.detail.None? then Panicked
      else if ForbidsFallbacks(f) then Error(f)
      else if attempts(0).Refused? then Error(attempts(0).failure) else Error(f)
  }

  /**
   Attempts are made in the order given, skipping fallbacks without a provider config, and none after
   one that succeeds or halts. The first success is returned; a cancelled or fallback-forbidding error
   halts with that error; when all have failed otherwise, the primary's error is returned.
   */
  method HandleRequest(fallbacks: seq<Fallback>, configured: Fallback -> bool, attempts: Attempts)
    returns (answer: Answer, tried: seq<nat>)
    ensures exists n: nat :: n <= |fallbacks| && tried == Due(fallbacks, configured, n)
    ensures |tried| > 0 && tried[0] == 0
    ensures forall i :: 0 <= i < |tried| - 1 ==> Continues(tried[i], attempts(tried[i]))
    ensures Continues(tried[|tried| - 1], attempts(tried[|tried| - 1])) ==> tried == Due(fallbacks, configured, |fallbacks|)
    ensures answer == Decision(attempts, tried[|tried| - 1])
  {
    tried := [0];
    assert tried == Due(fallbacks, configured, 0);
    var primary := attempts(0);
    if primary.Served? {
      return Response(primary.body), tried;
    }
    if !TriesFallbacks(fallbacks, primary.failure) {
      return Error(primary.failure), tried;
    }
    for i := 0 to |fallbacks|
      invariant tried == Due(fallbacks, configured, i)
      invariant |tried| > 0 && tried[0] == 0
      invariant forall j :: 0 <= j < |tried| ==> Continues(tried[j], attempts(tried[j]))
    {
      if !configured(fallbacks[i]) {
        continue;
      }
      tried := tried + [i + 1];
      assert tried == Due(fallbacks, configured, i + 1);
      var outcome := attempts(i + 1);
      if outcome.Served? {
        return Response(outcome.body), tried;
      }
      if outcome.failure.detail.None? {
        return Panicked, tried;
      }
      if ForbidsFallbacks(outcome.failure) {
        return Error(outcome.failure), tried;
      }
    }
    return Error(primary.failure), tried;
  }

  /** Due attempts come in increasing order: the primary first, then exactly the configured fallbacks. */
  lemma {:induction false} DueInOrder(fallbacks: seq<Fallback>, configured: Fallback -> bool, n: nat)
    requires n <= |fallbacks|
    ensures forall i, j :: 0 <= i < j < |Due(fallbacks, configured, n)| ==>
              Due(fallbacks, configured, n)[i] < Due(fallbacks, configured, n)[j]
    ensures forall k: nat :: k in Due(fallbacks, configured, n) <==> k == 0 || (k <= n && configured(fallbacks[k - 1]))
  {
    if n > 0 {
      DueInOrder(fallbacks, configured, n - 1);
      var d := Due(fallbacks, configured, n - 1);
      forall i | 0 <= i < |d| ensures d[i] < n {
        var k: nat := d[i];
        assert k in d;
      }
      forall k: nat ensures k in Due(fallbacks, configured, n) <==> k in d || (k == n && configured(fallbacks[n - 1])) {
      }
    }
  }
}
