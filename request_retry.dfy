/**
 * `responseRetryInterceptor`: a failed response in scope that was not cancelled
 * is re-sent with the error's own request configuration until one re-send
 * succeeds or `count` re-sends have failed.
 *
 * The transport is the sequence `transport` of what each successive re-send
 * comes back with. A run that has used up `transport` while still retrying
 * reports `outcome == None`: that is how an unbounded retry (`count <= 0`) shows.
 */
module RequestRetry {
  import opened Wrappers
  import opened Js
  import opened Utils
  import opened Axios

  datatype RetryOptions = RetryOptions(scope: MatchSpec, count: Option<int>, axiosInterceptorOptions: JsValue)

  /** How `onRejected` settled (`None`: still retrying), and the configs it re-sent, in order. */
  datatype RetryRun = RetryRun(outcome: Option<Outcome>, resent: seq<RequestConfig>)

  /** `count` when given, else 1. */
  function Limit(options: RetryOptions): int {
    options.count.GetOr(1)
  }

  /** Index of the first successful attempt, or `|t|` when all failed. */
  function FirstSuccess(t: seq<Attempt>): (i: nat)
    ensures i <= |t|
    ensures forall j :: 0 <= j < i ==> t[j].Failed?
    ensures i < |t| ==> t[i].Succeeded?
  {
    if |t| == 0 then 0 else if t[0].Succeeded? then 0 else 1 + FirstSuccess(t[1..])
  }

  /**
   * What retrying does, stated directly: the first success within the first
   * `count` re-sends wins; if the first `count` re-sends all fail, the last
   * one's error is the rejection; otherwise `transport` ran out first.
   */
  function Retried(count: int, config: RequestConfig, t: seq<Attempt>): (run: RetryRun)
    ensures |run.resent| <= |t|
    ensures run.outcome.None? ==> |run.resent| == |t|
    ensures forall j :: 0 <= j < |run.resent| ==> run.resent[j] == config
    ensures forall j :: 0 <= j < |run.resent| - 1 ==> t[j].Failed?
    ensures run.outcome.Some? && run.outcome.value.ResolvedWith? ==>
      (0 < |run.resent| && t[|run.resent| - 1] == Succeeded(run.outcome.value.response))
    ensures run.outcome.Some? && run.outcome.value.Rejected? ==>
      (1 <= |run.resent| == count && t[count - 1] == Failed(run.outcome.value.error))
  {
    var s := FirstSuccess(t);
    if s < |t| && (count < 1 || s < count) then
      RetryRun(Some(ResolvedWith(t[s].response)), seq(s + 1, _ => config))
    else if 1 <= count <= |t| then
      RetryRun(Some(Rejected(t[count - 1].error)), seq(count, _ => config))
    else
      RetryRun(None, seq(|t|, _ => config))
  }

  /** What `onRejected` settles to, stated directly. */
  function Expected(options: RetryOptions, glob: Glob, error: AxiosError, transport: seq<Attempt>): (run: RetryRun)
    ensures run.outcome.Some? ==> !run.outcome.value.Resolved?
    ensures |run.resent| > 0 ==> error.config.InScope(options.scope, glob) && !error.isCancel
    ensures forall j :: 0 <= j < |run.resent| ==> run.resent[j] == error.config
  {
    if !error.config.InScope(options.scope, glob) || error.isCancel then RetryRun(Some(Rejected(error)), [])
    else Retried(Limit(options), error.config, transport)
  }

  /**
   * `onRejected`, with the recursive `retry` closure as a loop: the counter is
   * bumped before each re-send and compared with `===` after a failure.
   */
  method OnRejected(options: RetryOptions, glob: Glob, error: AxiosError, transport: seq<Attempt>)
    returns (run: RetryRun)
    ensures run == Expected(options, glob, error, transport)
  {
    if !error.config.InScope(options.scope, glob) || error.isCancel {
      return RetryRun(Some(Rejected(error)), []);
    }
    var count := Limit(options);
    var retryCount := 0;
    var resent: seq<RequestConfig> := [];
    while retryCount < |transport|
      invariant 0 <= retryCount <= |transport|
      invariant retryCount <= FirstSuccess(transport)
      invariant count >= 1 ==> retryCount < count
      invariant resent == seq(retryCount, _ => error.config)
    {
      retryCount := retryCount + 1;
      resent := resent + [error.config];
      match transport[retryCount - 1]
      case Succeeded(response) =>
        return RetryRun(Some(ResolvedWith(response)), resent);
      case Failed(e) =>
        if retryCount == count {
          return RetryRun(Some(Rejected(e)), resent);
        }
    }
    return RetryRun(None, resent);
  }

  /** `onFulfilled` is the identity. */
  function OnFulfilled(response: Response): (r: Outcome)
    ensures r.ResolvedWith? && r.response == response
  {
    ResolvedWith(response)
  }

  /** Out of scope, or cancelled: reject with the original error and re-send nothing. */
  lemma NoRetryOutOfScopeOrCancelled(options: RetryOptions, glob: Glob, error: AxiosError, transport: seq<Attempt>)
    requires !error.config.InScope(options.scope, glob) || error.isCancel
    ensures Expected(options, glob, error, transport) == RetryRun(Some(Rejected(error)), [])
  {
  }

  /**
   * With `count = n >= 1` and the first `n` re-sends failing, exactly `n`
   * re-sends happen and the rejection carries the `n`-th re-send's error, not
   * the original one.
   */
  lemma AllFailingRejectsWithLastError(count: int, config: RequestConfig, t: seq<Attempt>)
    requires 1 <= count <= |t|
    requires forall j :: 0 <= j < count ==> t[j].Failed?
    ensures Retried(count, config, t).outcome == Some(Rejected(t[count - 1].error))
    ensures |Retried(count, config, t).resent| == count
  {
  }

  /** The first successful re-send within the limit settles the run, and nothing is sent after it. */
  lemma StopsAtFirstSuccess(count: int, config: RequestConfig, t: seq<Attempt>, k: nat)
    requires k < |t| && t[k].Succeeded?
    requires forall j :: 0 <= j < k ==> t[j].Failed?
    requires count < 1 || k < count
    ensures Retried(count, config, t).outcome == Some(ResolvedWith(t[k].response))
    ensures |Retried(count, config, t).resent| == k + 1
  {
  }

  /** Every re-send uses the error's own configuration object. */
  lemma ResendsOriginalConfig(count: int, config: RequestConfig, t: seq<Attempt>, j: nat)
    requires j < |Retried(count, config, t).resent|
    ensures Retried(count, config, t).resent[j] == config
  {
  }

  /**
   * With `count >= 1` the run settles within `count` re-sends; with `count <= 0`
   * and every re-send failing it never settles, however many re-sends the
   * transport answers, because the counter has passed `count` before the first
   * comparison.
   */
  lemma SettlesIffCountPositive(count: int, config: RequestConfig, t: seq<Attempt>)
    ensures count >= 1 && |t| >= count ==> Retried(count, config, t).outcome.Some?
    ensures count >= 1 ==> |Retried(count, config, t).resent| <= count
    ensures count < 1 && (forall j :: 0 <= j < |t| ==> t[j].Failed?) ==>
      Retried(count, config, t) == RetryRun(None, seq(|t|, _ => config))
  {
  }

  /** With `count` absent, one re-send is made. */
  lemma DefaultIsOneRetry(scope: MatchSpec, extra: JsValue, config: RequestConfig, t: seq<Attempt>)
    requires |t| >= 1
    ensures Retried(Limit(RetryOptions(scope, None, extra)), config, t).outcome ==
      Some(if t[0].Succeeded? then ResolvedWith(t[0].response) else Rejected(t[0].error))
    ensures |Retried(Limit(RetryOptions(scope, None, extra)), config, t).resent| == 1
  {
  }
}
