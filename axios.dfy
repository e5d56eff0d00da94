/**
 * The shapes of the HTTP client's objects that the interceptors read or write:
 * the request configuration (its `headers` are written in place), the response,
 * and the error (its `code` is rewritten in place). Everything the library never
 * touches is left out.
 */
module Axios {
  import opened Wrappers
  import opened Js
  import opened Utils

  /** `verb` is `config.method`. */
  class RequestConfig {
    const verb: Option<string>
    const url: Option<string>
    var headers: Props

    constructor (verb: Option<string>, url: Option<string>, headers: Props)
      ensures this.verb == verb && this.url == url && this.headers == headers
    {
      this.verb := verb;
      this.url := url;
      this.headers := headers;
    }

    /** The guard every interceptor applies first: `matcher(config.method ?? '', config.url ?? '')`. */
    predicate InScope(spec: MatchSpec, glob: Glob) {
      Matches(spec, verb.GetOr(""), url.GetOr(""), glob)
    }
  }

  /** A response; `requestResponseType` is `response.request.responseType`. */
  datatype Response = Response(status: int, config: RequestConfig, requestResponseType: string, data: JsValue)

  class AxiosError {
    var code: Option<string>
    const message: string
    const config: RequestConfig
    const response: Option<Response>
    /** `isCancel(error)`: the request was cancelled through its abort signal. */
    const isCancel: bool

    constructor (code: Option<string>, message: string, config: RequestConfig, response: Option<Response>, isCancel: bool)
      ensures this.code == code && this.message == message && this.config == config
      ensures this.response == response && this.isCancel == isCancel
    {
      this.code := code;
      this.message := message;
      this.config := config;
      this.response := response;
      this.isCancel := isCancel;
    }
  }

  /**
   * How a response-side interceptor settles: resolved with an arbitrary value
   * (what a handler returned), resolved with a response object, rejected with an
   * error, or thrown a `TypeError` of its own.
   */
  datatype Outcome =
    | Resolved(value: JsValue)
    | ResolvedWith(response: Response)
    | Rejected(error: AxiosError)
    | ThrewTypeError

  /** What one request sent through the transport came back with. */
  datatype Attempt = Succeeded(response: Response) | Failed(error: AxiosError)
}
