/**
 * `responseBlobInterceptor`: in scope, a response whose request asked for a
 * blob goes through `onResponse`; a nullish result, or no `onResponse`, keeps
 * the response.
 */
module ResponseBlob {
  import opened Wrappers
  import opened Js
  import opened Utils
  import opened Axios

  datatype BlobOptions = BlobOptions(
    scope: MatchSpec,
    onResponse: Option<Response -> JsValue>,
    axiosInterceptorOptions: JsValue)

  /** The default `{}`: no include, no exclude, no `onResponse`. */
  const DefaultOptions: BlobOptions := BlobOptions(MatchSpec(None, None), None, Undefined)

  predicate IsBlob(response: Response) {
    response.requestResponseType == "blob"
  }

  /**
   * The case in which `OnFulfilled` hands the response to `onResponse`: in
   * scope, a blob, and a handler given. Outside it the response is kept
   * (the second `ensures` of `OnFulfilled`).
   */
  predicate CallsOnResponse(options: BlobOptions, glob: Glob, response: Response) {
    response.config.InScope(options.scope, glob) && IsBlob(response) && options.onResponse.Some?
  }

  /**
   * `onFulfilled`: the response is replaced only by a non-nullish `onResponse`
   * result, and `onResponse` is consulted only for an in-scope blob response.
   */
  function OnFulfilled(options: BlobOptions, glob: Glob, response: Response): (r: Outcome)
    ensures r.Resolved? || r == ResolvedWith(response)
    ensures r.Resolved? <==>
      CallsOnResponse(options, glob, response) && !IsNullish(options.onResponse.value(response))
    ensures r.Resolved? ==> r.value == options.onResponse.value(response)
  {
    if !response.config.InScope(options.scope, glob) then ResolvedWith(response)
    else if IsBlob(response) then
      if options.onResponse.None? then ResolvedWith(response)
      else
        var handled := options.onResponse.value(response);
        if IsNullish(handled) then ResolvedWith(response) else Resolved(handled)
    else ResolvedWith(response)
  }

  /** `onRejected`: rejects with the very error it was given. */
  function OnRejected(error: AxiosError): (r: Outcome)
    ensures r.Rejected? && r.error == error
  {
    Rejected(error)
  }

  /** With no include or exclude, every blob response reaches `onResponse`. */
  lemma DefaultScopeRoutesEveryBlob(onResponse: Response -> JsValue, glob: Glob, response: Response)
    requires IsBlob(response)
    ensures CallsOnResponse(DefaultOptions.(onResponse := Some(onResponse)), glob, response)
  {
  }
}
