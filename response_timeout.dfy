/**
 * `responseTimeoutInterceptor`: an error in scope that signals a timeout gets
 * its `code` rewritten, in place, to a configurable value; it is rejected
 * either way.
 */
module ResponseTimeout {
  import opened Wrappers
  import opened Js
  import opened Utils
  import opened Axios

  datatype TimeoutOptions = TimeoutOptions(
    scope: MatchSpec,
    normalizeErrorCode: Option<string>,
    axiosInterceptorOptions: JsValue)

  const TimeoutCode: string := "TIMEOUT"

  /** `s.includes(sub)`, case-sensitive: `sub` occurs somewhere in `s`. */
  predicate Contains(s: string, sub: string) {
    IndexOf(s, sub).Some?
  }

  /** `(code === 'ECONNABORTED' && message.includes('timeout')) || code === 'ETIMEDOUT'` */
  predicate IsTimeout(code: Option<string>, message: string) {
    (code == Some("ECONNABORTED") && Contains(message, "timeout")) || code == Some("ETIMEDOUT")
  }

  /** The code after the rule: a timeout becomes `normalizeErrorCode ?? 'TIMEOUT'`, anything else stays. */
  function Normalized(options: TimeoutOptions, code: Option<string>, message: string): (c: Option<string>)
    ensures c != code ==> IsTimeout(code, message)
    ensures IsTimeout(code, message) ==> c == Some(options.normalizeErrorCode.GetOr(TimeoutCode))
    ensures IsTimeout(c, message) ==> c == code || options.normalizeErrorCode.Some?
  {
    if IsTimeout(code, message) then Some(options.normalizeErrorCode.GetOr(TimeoutCode)) else code
  }

  /**
   * `onRejected`: always rejects with the same error object; only its `code` can
   * change, and only in scope.
   */
  method OnRejected(options: TimeoutOptions, glob: Glob, error: AxiosError) returns (r: Outcome)
    modifies error
    ensures r == Rejected(error)
    ensures error.code ==
      if error.config.InScope(options.scope, glob) then Normalized(options, old(error.code), error.message)
      else old(error.code)
  {
    if error.config.InScope(options.scope, glob) && IsTimeout(error.code, error.message) {
      error.code := Some(options.normalizeErrorCode.GetOr(TimeoutCode));
    }
    return Rejected(error);
  }

  /** `onFulfilled` is the identity. */
  function OnFulfilled(response: Response): (r: Outcome)
    ensures r.ResolvedWith? && r.response == response
  {
    ResolvedWith(response)
  }

  /** Applying the rule a second time changes nothing. */
  lemma NormalizeIdempotent(options: TimeoutOptions, code: Option<string>, message: string)
    ensures Normalized(options, Normalized(options, code, message), message) == Normalized(options, code, message)
  {
  }

  /** `ECONNABORTED` counts as a timeout only when the message contains lower-case `timeout`. */
  lemma ConnAbortedNeedsLowerCaseTimeout(options: TimeoutOptions, message: string)
    requires !Contains(message, "timeout")
    ensures Normalized(options, Some("ECONNABORTED"), message) == Some("ECONNABORTED")
  {
  }

  /** A message reading "TIMEOUT" in capitals does not contain "timeout". */
  lemma UpperCaseIsNotTimeout()
    ensures !Contains("TIMEOUT", "timeout")
  {
    var s := "TIMEOUT";
    assert s[0] != "timeout"[0];
  }
}
