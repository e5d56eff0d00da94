/**
 * `createUseAxis` / `useAxis`: the request-lifecycle hook. One hook holds five
 * cells (value, loading, error, upload and download progress) and a reassignable
 * abort controller; `run` is split into `Start`, everything up to the awaited
 * request, and `Settle`, everything after it, with the request's outcome as a
 * parameter. The user callbacks are recorded, in order, with the cells they
 * would have seen.
 */
module UseAxis {
  import opened Wrappers
  import Js
  import Instance

  /** `onTransform(response, refs)`, as a function of the response. */
  type Transform = Js.JsValue -> Js.JsValue

  /** `options.params`: absent, a value, or a zero-argument getter. */
  datatype ParamsOption = NoParams | StaticParams(value: Js.JsValue) | ParamsGetter(get: () -> Js.JsValue)

  /** The options of `createUseAxis` other than `axis`. */
  datatype FactoryOptions = FactoryOptions(immediate: Option<bool>, onTransform: Option<Transform>)

  /**
   * The options of `useAxis`. `customRequest` says whether `request` is a
   * function; what it returns is the outcome given to `Settle`.
   */
  datatype HookOptions = HookOptions(
    url: Option<string>,
    runner: Option<Instance.Runner>,
    customRequest: bool,
    value: Js.JsValue,
    params: ParamsOption,
    resetValue: Option<bool>,
    config: Js.JsValue,
    immediate: Option<bool>,
    onTransform: Option<Transform>)

  /** `immediate = defaultImmediate` as a destructuring default, then tested for truthiness. */
  function Immediate(factory: FactoryOptions, options: HookOptions): (r: bool)
    ensures options.immediate.Some? ==> r == options.immediate.value
    ensures options.immediate.None? ==> (r <==> factory.immediate == Some(true))
  {
    options.immediate.GetOr(factory.immediate.GetOr(false))
  }

  /**
   * `onTransform = defaultOnTransform ?? identity` as a destructuring default,
   * applied to a response: the call-site transform wins, the factory's is used
   * only when the call site gives none, and otherwise the response is kept.
   */
  function ApplyTransform(factory: FactoryOptions, options: HookOptions, response: Js.JsValue): (v: Js.JsValue)
    ensures options.onTransform.Some? ==> v == options.onTransform.value(response)
    ensures options.onTransform.None? && factory.onTransform.Some? ==> v == factory.onTransform.value(response)
    ensures options.onTransform.None? && factory.onTransform.None? ==> v == response
  {
    match options.onTransform
    case Some(t) => t(response)
    case None =>
      match factory.onTransform
      case Some(t) => t(response)
      case None => response
  }

  /**
   * The factory's transform is only a default: once the call site gives one,
   * the value does not depend on the factory's at all.
   */
  lemma TransformPrecedence(f1: FactoryOptions, f2: FactoryOptions, options: HookOptions, response: Js.JsValue)
    requires options.onTransform.Some?
    ensures ApplyTransform(f1, options, response) == ApplyTransform(f2, options, response)
  {
  }

  /**
   * `(initialResetValue ?? reset) === true`: the hook's `resetValue`, when it is
   * given, decides alone, even when it is `false`; otherwise the run's `reset`.
   */
  function ResetFlag(hookReset: Option<bool>, runReset: Option<bool>): (r: bool)
    ensures r <==> hookReset == Some(true) || (hookReset.None? && runReset == Some(true))
  {
    match hookReset
    case Some(b) => b
    case None => runReset == Some(true)
  }

  /** `isFunction(p) ? p() : {}`, the getter's part of the request params. */
  function GetterPart(p: ParamsOption): Js.JsValue {
    if p.ParamsGetter? then p.get() else Js.Obj([])
  }

  /** `{...getterParams, ...options.params}`: a getter spreads nothing of its own. */
  function AxisParams(p: ParamsOption): (r: Js.Props)
    ensures p.NoParams? ==> r == []
  {
    var staticPart := if p.StaticParams? then Js.OwnEntries(p.value) else [];
    Js.Assign(Js.Assign([], Js.OwnEntries(GetterPart(p))), staticPart)
  }

  /**
   * The params sent through the client come from the getter's result or from
   * the static params, whichever was given, and from nothing else.
   */
  lemma {:induction false} AxisParamsGet(p: ParamsOption, k: string)
    requires Js.DistinctKeys(Js.OwnEntries(GetterPart(p)))
    requires p.StaticParams? ==> Js.DistinctKeys(Js.OwnEntries(p.value))
    ensures p.NoParams? ==> Js.Get(AxisParams(p), k) == None
    ensures p.StaticParams? ==> Js.Get(AxisParams(p), k) == Js.Get(Js.OwnEntries(p.value), k)
    ensures p.ParamsGetter? ==> Js.Get(AxisParams(p), k) == Js.Get(Js.OwnEntries(p.get()), k)
  {
    var getterPart := Js.OwnEntries(GetterPart(p));
    var staticPart := if p.StaticParams? then Js.OwnEntries(p.value) else [];
    Js.AssignGet([], getterPart, k);
    Js.AssignGet(Js.Assign([], getterPart), staticPart, k);
    Js.FindUnique([], k, 0);
    if !Js.Has(staticPart, k) {
      Js.FindUnique(staticPart, k, |staticPart|);
    }
  }

  /** What `immediate` passes to `run`: the getter's result, else the static params (possibly `undefined`). */
  function InitialParams(p: ParamsOption): (v: Js.JsValue)
    ensures p.NoParams? ==> v == Js.Undefined
    ensures p.StaticParams? ==> v == p.value
    ensures p.ParamsGetter? ==> v == p.get()
  {
    match p
    case NoParams => Js.Undefined
    case StaticParams(v) => v
    case ParamsGetter(g) => g()
  }

  /**
   * The run that `immediate` starts sends, through the client, exactly the
   * properties of the value it is handed: the params the request carries and
   * the run's own argument agree key by key.
   */
  lemma {:induction false} ImmediateParamsAgree(p: ParamsOption, k: string)
    requires Js.DistinctKeys(Js.OwnEntries(GetterPart(p)))
    requires p.StaticParams? ==> Js.DistinctKeys(Js.OwnEntries(p.value))
    ensures Js.Get(AxisParams(p), k) == Js.Get(Js.OwnEntries(InitialParams(p)), k)
  {
    AxisParamsGet(p, k);
  }

  class AbortController {
    var aborted: bool

    constructor ()
      ensures !aborted
    {
      aborted := false;
    }

    /** `controller.abort()` */
    method Abort()
      modifies this
      ensures aborted
    {
      aborted := true;
    }
  }

  /**
   * The request a run issues. On the client path, the request config is
   * `{ signal, onUploadProgress, onDownloadProgress, ...config }`: the hook's
   * signal and progress handlers, then `config`'s own properties spread over them.
   */
  datatype Call =
    | CustomRequest(argument: Js.JsValue)
    | AxisRequest(runner: Instance.Runner, url: string, params: Js.Props, signal: AbortController, config: Js.Props)

  /** The request of a run with argument `params` whose controller is `signal`. */
  function RequestFor(options: HookOptions, params: Js.JsValue, signal: AbortController): (c: Call)
    ensures options.customRequest ==> c == CustomRequest(params)
    ensures !options.customRequest ==> c.AxisRequest? && c.signal == signal
    ensures !options.customRequest ==> c.runner == options.runner.GetOr(Instance.Fetch(Instance.Get, Instance.Json))
    ensures !options.customRequest && options.runner.None? ==> c.runner == Instance.Fetch(Instance.Get, Instance.Json)
    ensures !options.customRequest ==> c.url == options.url.GetOr("")
    ensures !options.customRequest && options.url.None? ==> c.url == ""
    ensures !options.customRequest ==> c.config == Js.OwnEntries(options.config)
    ensures !options.customRequest ==> c.params == AxisParams(options.params)
  {
    if options.customRequest then CustomRequest(params)
    else AxisRequest(options.runner.GetOr(Instance.Fetch(Instance.Get, Instance.Json)), options.url.GetOr(""),
                     AxisParams(options.params), signal, Js.OwnEntries(options.config))
  }

  /** How the awaited request settled. */
  datatype Settlement = Fulfilled(response: Js.JsValue) | Failed(reason: Js.JsValue)

  /** What the callbacks see through `refs`. */
  datatype View = View(value: Js.JsValue, loading: bool, error: Js.JsValue, uploadProgress: real, downloadProgress: real)

  datatype Callback = OnBefore | OnSuccess(response: Js.JsValue) | OnError(reason: Js.JsValue) | OnAfter

  /** One callback invocation and the cells it saw. */
  datatype Step = Step(callback: Callback, seen: View)

  /** The steps `Settle` records, given the cells before it and the new `value` and `error`. */
  function SettleSteps(outcome: Settlement, loadingBefore: bool, value: Js.JsValue, error: Js.JsValue,
                       up: real, down: real): (s: seq<Step>)
    ensures |s| == 2 && s[1] == Step(OnAfter, View(value, false, error, up, down))
    ensures s[0].seen == View(value, loadingBefore, error, up, down)
    ensures outcome.Fulfilled? ==> s[0].callback == OnSuccess(outcome.response)
    ensures outcome.Failed? ==> s[0].callback == OnError(outcome.reason)
  {
    var first := match outcome
      case Fulfilled(response) => OnSuccess(response)
      case Failed(reason) => OnError(reason);
    [Step(first, View(value, loadingBefore, error, up, down)), Step(OnAfter, View(value, false, error, up, down))]
  }

  /** One `useAxis` instance: the refs it returns, its controller, and what it has issued and called. */
  class Hook {
    const factory: FactoryOptions
    const options: HookOptions
    var value: Js.JsValue
    var loading: bool
    /** `Undefined` when there is no error. */
    var error: Js.JsValue
    var uploadProgress: real
    var downloadProgress: real
    var controller: AbortController
    var calls: seq<Call>
    var steps: seq<Step>

    function Cells(): View
      reads this
    {
      View(value, loading, error, uploadProgress, downloadProgress)
    }

    /**
     * `useAxis(options)`: the cells start as (initial value, not loading, no
     * error, 0, 0) with a fresh controller; with `immediate` on, a first run is
     * started with the initial params and no `reset` argument.
     */
    constructor (factory: FactoryOptions, options: HookOptions)
      ensures this.factory == factory && this.options == options
      ensures fresh(controller) && !controller.aborted
      ensures uploadProgress == 0.0 && downloadProgress == 0.0 && error == Js.Undefined
      ensures !Immediate(factory, options) ==>
        value == options.value && !loading && calls == [] && steps == []
      ensures Immediate(factory, options) ==>
        && value == options.value
        && loading
        && calls == [RequestFor(options, InitialParams(options.params), controller)]
        && steps == [Step(OnBefore, View(options.value, false, Js.Undefined, 0.0, 0.0))]
    {
      this.factory := factory;
      this.options := options;
      value := options.value;
      loading := false;
      error := Js.Undefined;
      uploadProgress := 0.0;
      downloadProgress := 0.0;
      controller := new AbortController();
      calls := [];
      steps := [];
      new;
      if Immediate(factory, options) {
        Start(InitialParams(options.params), None);
      }
    }

    /**
     * The synchronous part of `run(params, reset)`: an aborted controller is
     * replaced by a fresh one; `value` is reset to the initial value when the
     * reset flag is `true`; both progress cells become 0; `onBefore` sees that;
     * then `loading` becomes true and the request goes out with the current
     * controller. `error` is left as it was.
     */
    method Start(params: Js.JsValue, reset: Option<bool>)
      modifies this
      ensures old(controller.aborted) ==> fresh(controller) && !controller.aborted
      ensures !old(controller.aborted) ==> controller == old(controller)
      ensures !controller.aborted
      ensures value == if ResetFlag(options.resetValue, reset) then options.value else old(value)
      ensures error == old(error) && loading
      ensures uploadProgress == 0.0 && downloadProgress == 0.0
      ensures calls == old(calls) + [RequestFor(options, params, controller)]
      ensures steps == old(steps) + [Step(OnBefore, View(value, old(loading), old(error), 0.0, 0.0))]
    {
      if controller.aborted {
        controller := new AbortController();
      }
      if ResetFlag(options.resetValue, reset) {
        value := options.value;
      }
      uploadProgress := 0.0;
      downloadProgress := 0.0;
      steps := steps + [Step(OnBefore, Cells())];
      loading := true;
      calls := calls + [RequestFor(options, params, controller)];
    }

    /**
     * The part of `run` after the awaited request. On success `value` becomes the
     * transformed response and `error` is cleared; on failure `error` is the
     * reason and `value` is kept. Then `onSuccess` or `onError`, `loading`
     * false, `onAfter`; the run resolves with the raw response or rejects with
     * the same reason.
     */
    method Settle(outcome: Settlement) returns (result: Settlement)
      modifies this`value, this`error, this`loading, this`steps
      ensures result == outcome
      ensures !loading
      ensures outcome.Fulfilled? ==>
        value == ApplyTransform(factory, options, outcome.response) && error == Js.Undefined
      ensures outcome.Failed? ==> value == old(value) && error == outcome.reason
      ensures steps == old(steps) + SettleSteps(outcome, old(loading), value, error, uploadProgress, downloadProgress)
    {
      match outcome {
        case Fulfilled(response) =>
          value := ApplyTransform(factory, options, response);
          error := Js.Undefined;
          steps := steps + [Step(OnSuccess(response), Cells())];
        case Failed(reason) =>
          error := reason;
          steps := steps + [Step(OnError(reason), Cells())];
      }
      loading := false;
      steps := steps + [Step(OnAfter, Cells())];
      return outcome;
    }

    /**
     * `run(params, reset)` carried through to the given outcome: `Start`, then
     * `Settle`, so that the callbacks run in the order onBefore, onSuccess or
     * onError, onAfter, and `loading` is false at the end either way.
     */
    method Run(params: Js.JsValue, reset: Option<bool>, outcome: Settlement) returns (result: Settlement)
      modifies this
      ensures result == outcome && !loading
      ensures old(controller.aborted) ==> fresh(controller)
      ensures !controller.aborted && (!old(controller.aborted) ==> controller == old(controller))
      ensures uploadProgress == 0.0 && downloadProgress == 0.0
      ensures calls == old(calls) + [RequestFor(options, params, controller)]
      ensures outcome.Fulfilled? ==>
        value == ApplyTransform(factory, options, outcome.response) && error == Js.Undefined
      ensures outcome.Failed? ==>
        value == (if ResetFlag(options.resetValue, reset) then options.value else old(value)) && error == outcome.reason
      ensures steps == old(steps)
        + [Step(OnBefore, View(if ResetFlag(options.resetValue, reset) then options.value else old(value),
                               old(loading), old(error), 0.0, 0.0))]
        + SettleSteps(outcome, true, value, error, 0.0, 0.0)
    {
      Start(params, reset);
      result := Settle(outcome);
    }

    /** `abort()`: marks the current controller aborted; nothing else changes. */
    method Abort()
      modifies controller
      ensures controller.aborted
    {
      controller.Abort();
    }

    /** The `onUploadProgress` handler: `uploadProgress = event.progress ?? 0`. */
    method UploadProgress(progress: Option<real>)
      modifies this`uploadProgress
      ensures uploadProgress == progress.GetOr(0.0)
    {
      uploadProgress := progress.GetOr(0.0);
    }

    /** The `onDownloadProgress` handler: `downloadProgress = event.progress ?? 0`. */
    method DownloadProgress(progress: Option<real>)
      modifies this`downloadProgress
      ensures downloadProgress == progress.GetOr(0.0)
    {
      downloadProgress := progress.GetOr(0.0);
    }
  }
}
