/**
 * `requestHeadersInterceptor`: on an outgoing request in scope, write every
 * entry of a header record (given directly or by a getter) into
 * `config.headers`, in place.
 */
module RequestHeader {
  import opened Wrappers
  import opened Js
  import opened Utils
  import opened Axios

  /** `options.headers`: absent, a record, or a zero-argument getter returning one. */
  datatype HeaderSource = NoHeaders | Record(value: JsValue) | Getter(get: () -> JsValue)

  datatype RequestHeadersOptions = RequestHeadersOptions(
    scope: MatchSpec,
    headers: HeaderSource,
    axiosInterceptorOptions: JsValue)

  /** `Object.entries((isFunction(h) ? h() : h) ?? {})` */
  function ResolvedEntries(h: HeaderSource): Props {
    match h
    case NoHeaders => OwnEntries(Nullish(Undefined, Obj([])))
    case Record(v) => OwnEntries(Nullish(v, Obj([])))
    case Getter(get) => OwnEntries(Nullish(get(), Obj([])))
  }

  /**
   * `onFulfilled`: returns the same config object. Out of scope, its headers are
   * untouched and the getter is not called; in scope, the resolved entries are
   * written over the existing headers one by one.
   */
  method OnFulfilled(options: RequestHeadersOptions, glob: Glob, config: RequestConfig)
    returns (r: RequestConfig, getterCalled: bool)
    modifies config
    ensures r == config
    ensures getterCalled <==> config.InScope(options.scope, glob) && options.headers.Getter?
    ensures config.headers ==
      if config.InScope(options.scope, glob) then Assign(old(config.headers), ResolvedEntries(options.headers))
      else old(config.headers)
  {
    if !config.InScope(options.scope, glob) {
      return config, false;
    }
    getterCalled := options.headers.Getter?;
    var entries := ResolvedEntries(options.headers);
    var i := 0;
    while i < |entries|
      invariant 0 <= i <= |entries|
      invariant config.headers == Assign(old(config.headers), entries[..i])
    {
      AssignSnoc(old(config.headers), entries[..i], entries[i].0, entries[i].1);
      assert entries[..i + 1] == entries[..i] + [(entries[i].0, entries[i].1)];
      config.headers := Put(config.headers, entries[i].0, entries[i].1);
      i := i + 1;
    }
    assert entries[..i] == entries;
    r := config;
  }

  /**
   * The headers after an in-scope merge: each resolved entry is present with its
   * value (an existing header of that name is overwritten), every other header
   * keeps its value, and no other header appears.
   */
  lemma MergedHeaders(before: Props, h: HeaderSource, k: string)
    requires DistinctKeys(ResolvedEntries(h))
    ensures Has(ResolvedEntries(h), k) ==> Get(Assign(before, ResolvedEntries(h)), k) == Get(ResolvedEntries(h), k)
    ensures !Has(ResolvedEntries(h), k) ==> Get(Assign(before, ResolvedEntries(h)), k) == Get(before, k)
  {
    AssignGet(before, ResolvedEntries(h), k);
  }

  /** With no headers, or a getter returning `null`/`undefined`, nothing is written. */
  lemma NullishHeadersChangeNothing(before: Props, h: HeaderSource)
    requires h.NoHeaders? || (h.Record? && IsNullish(h.value)) || (h.Getter? && IsNullish(h.get()))
    ensures Assign(before, ResolvedEntries(h)) == before
  {
  }

  /** `onRejected`: rejects with the very error it was given. */
  function OnRejected(error: AxiosError): (r: Outcome)
    ensures r.Rejected? && r.error == error
  {
    Rejected(error)
  }
}
