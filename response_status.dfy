/**
 * `responseStatusInterceptor`: in scope, look up a handler by the status code,
 * in `validStatusHandler` for a response and in `invalidStatusHandler` for an
 * error, and let a non-nullish handler result replace the outcome.
 */
module ResponseStatus {
  import opened Wrappers
  import opened Js
  import opened Utils
  import opened Axios

  datatype StatusOptions = StatusOptions(
    scope: MatchSpec,
    validStatusHandler: Option<map<int, Response -> JsValue>>,
    invalidStatusHandler: Option<map<int, AxiosError -> JsValue>>,
    axiosInterceptorOptions: JsValue)

  /** `(options.validStatusHandler ?? {})[status]` is a handler. */
  predicate HasValidHandler(options: StatusOptions, status: int) {
    status in options.validStatusHandler.GetOr(map[])
  }

  predicate HasInvalidHandler(options: StatusOptions, status: int) {
    status in options.invalidStatusHandler.GetOr(map[])
  }

  /**
   * `onFulfilled`: never rejects; it resolves with a handler's result exactly
   * when the response is in scope, a handler exists for its status and the
   * handler returns something other than `null`/`undefined` (so `0` and
   * `false` are kept); otherwise with the same response.
   */
  function OnFulfilled(options: StatusOptions, glob: Glob, response: Response): (r: Outcome)
    ensures r.Resolved? || r == ResolvedWith(response)
    ensures r.Resolved? <==>
      && response.config.InScope(options.scope, glob)
      && HasValidHandler(options, response.status)
      && !IsNullish(options.validStatusHandler.value[response.status](response))
    ensures r.Resolved? ==> r.value == options.validStatusHandler.value[response.status](response)
  {
    if !response.config.InScope(options.scope, glob) then ResolvedWith(response)
    else
      var handlers := options.validStatusHandler.GetOr(map[]);
      if response.status !in handlers then ResolvedWith(response)
      else
        var handled := handlers[response.status](response);
        if IsNullish(handled) then ResolvedWith(response) else Resolved(handled)
  }

  /**
   * `onRejected`: out of scope, rejects with the same error. In scope, an error
   * without a response makes the status lookup throw; otherwise a handler's
   * non-nullish result recovers the failure into that value, and anything else
   * rejects with the same error.
   */
  function OnRejected(options: StatusOptions, glob: Glob, error: AxiosError): (r: Outcome)
    ensures !error.config.InScope(options.scope, glob) ==> r == Rejected(error)
    ensures r == ThrewTypeError <==> error.config.InScope(options.scope, glob) && error.response.None?
    ensures r.Resolved? <==>
      && error.config.InScope(options.scope, glob)
      && error.response.Some?
      && HasInvalidHandler(options, error.response.value.status)
      && !IsNullish(options.invalidStatusHandler.value[error.response.value.status](error))
    ensures r.Resolved? ==> r.value == options.invalidStatusHandler.value[error.response.value.status](error)
    ensures r.Rejected? ==> r.error == error
    ensures !r.ResolvedWith?
  {
    if !error.config.InScope(options.scope, glob) then Rejected(error)
    else if error.response.None? then ThrewTypeError
    else
      var handlers := options.invalidStatusHandler.GetOr(map[]);
      var status := error.response.value.status;
      if status !in handlers then Rejected(error)
      else
        var handled := handlers[status](error);
        if IsNullish(handled) then Rejected(error) else Resolved(handled)
  }

  /** A handler returning a falsy value that is not nullish (`0`, `false`, `''`) still replaces the response. */
  lemma FalsyHandlerResultKept(options: StatusOptions, glob: Glob, response: Response)
    requires response.config.InScope(options.scope, glob) && HasValidHandler(options, response.status)
    requires options.validStatusHandler.value[response.status](response) in {Num(0.0), Bool(false), Str("")}
    ensures OnFulfilled(options, glob, response) == Resolved(options.validStatusHandler.value[response.status](response))
  {
  }
}
