/** Upstream failures and how the retry loop sorts them (core/utils.go and the loop itself). */
module Failures {
  import opened Options

  datatype Detail = Detail(message: string, kind: Option<string>, code: Option<string>)

  /** A BifrostError: HTTP status, `IsBifrostError`, the error field and `AllowFallbacks`, each as far as set. */
  datatype Failure = Failure(status: Option<int>, isInternal: bool, detail: Option<Detail>, allowFallbacks: Option<bool>)

  const CANCELLED := "request_cancelled"
  const DO_REQUEST := "failed to execute HTTP request to provider API"
  const NETWORK := "network error occurred while connecting to provider API (DNS lookup, connection refused, etc.)"
  const BAD_CIPHERTEXT := "invalid_encrypted_content"

  const RATE_LIMIT_PATTERNS := [
    "rate limit", "rate_limit", "ratelimit", "too many requests", "quota exceeded", "quota_exceeded",
    "request limit", "throttled", "throttling", "rate exceeded", "limit exceeded", "requests per",
    "rpm exceeded", "tpm exceeded", "tokens per minute", "requests per minute", "requests per second",
    "api rate limit", "usage limit", "concurrent requests limit", "burst_rate", "rate increased"]

  const TRANSIENT_STATUS := {500, 502, 503, 504}
  const PER_KEY_STATUS := {401, 402, 403, 429}
  const PERMANENT_STATUS := {401, 402, 403}

  /** Unicode lower-casing, which the library provides. */
  type Lower = string -> string

  predicate OccursAt(s: string, part: string, i: nat) { i + |part| <= |s| && s[i..i + |part|] == part }

  predicate Contains(s: string, part: string) { exists i: nat :: i <= |s| && OccursAt(s, part, i) }

  predicate IsRateLimitText(lower: Lower, s: string) {
    s != "" && exists i :: 0 <= i < |RATE_LIMIT_PATTERNS| && Contains(lower(s), RATE_LIMIT_PATTERNS[i])
  }

  predicate HasStatus(f: Failure, codes: set<int>) { f.status.Some? && f.status.value in codes }

  predicate IsCancelled(f: Failure) { f.detail.Some? && f.detail.value.kind == Some(CANCELLED) }

  /** The loop stops at once: an error of the gateway itself, or a cancelled request. */
  predicate IsHalting(f: Failure) { f.isInternal || IsCancelled(f) }

  predicate HasRateLimitText(lower: Lower, f: Failure) {
    f.detail.Some? &&
    var d := f.detail.value;
    || IsRateLimitText(lower, d.message)
    || (d.kind.Some? && IsRateLimitText(lower, d.kind.value))
    || (d.code.Some? && IsRateLimitText(lower, d.code.value))
  }

  /** Bound to the key rather than the request: another key may do better. */
  predicate IsPerKey(lower: Lower, f: Failure) { HasStatus(f, PER_KEY_STATUS) || HasRateLimitText(lower, f) }

  /** Waiting will not make this key valid. */
  predicate IsPermanent(f: Failure) { HasStatus(f, PERMANENT_STATUS) }

  predicate IsRetryable(lower: Lower, f: Failure) {
    || (f.detail.Some? && f.detail.value.message in {DO_REQUEST, NETWORK})
    || HasStatus(f, TRANSIENT_STATUS)
    || IsPerKey(lower, f)
  }

  /** isEncryptedReasoningRejection */
  predicate IsCiphertextRejection(lower: Lower, f: Failure) {
    f.detail.Some? && f.status == Some(400) &&
    var d := f.detail.value;
    || (d.code.Some? && Contains(d.code.value, BAD_CIPHERTEXT))
    || Contains(lower(d.message), BAD_CIPHERTEXT)
    || (Contains(lower(d.message), "encrypted content") && Contains(lower(d.message), "could not be verified"))
    || (Contains(lower(d.message), "invalid `data`") && Contains(lower(d.message), "`redacted_thinking` block"))
  }

  /** The reason written into the attempt trail. */
  function FailReason(f: Failure): string {
    if f.status == Some(429) then "rate_limit_error"
    else if HasStatus(f, {401, 403}) then "authentication_error"
    else if f.status == Some(402) then "billing_error"
    else if f.detail.Some? && f.detail.value.kind.Some? && f.detail.value.kind.value != "" then f.detail.value.kind.value
    else "unknown"
  }
}
