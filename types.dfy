/**
 * The values the dispatch layer passes around: HTTP requests and responses,
 * per-request metadata, the boxed error type, and the interfaces of the
 * collaborators this model does not contain (the exact-match pattern
 * compiler, the regex engine and the path percent-decoder), which appear
 * here as function types and are handed to the operations as parameters.
 */
module Types {
  import opened Wrappers

  newtype u16 = x: int | 0 <= x < 0x1_0000
  newtype u32 = x: int | 0 <= x < 0x1_0000_0000

  type Bytes = seq<bv8>

  datatype Method =
    | Get | Post | Put | Delete | Head | Options | Connect | Patch | Trace
    | Extension(name: string)

  datatype SocketAddr = SocketAddr(ip: seq<bv8>, port: u16)

  /** A compiled exact-match regular expression, identified by its source text. */
  datatype Regex = Regex(source: string)

  /** What the pattern compiler yields: the matcher and the ordered parameter names. */
  datatype CompiledPattern = CompiledPattern(regex: Regex, params: seq<string>)

  /**
   * The exact-match pattern compiler: a path pattern either compiles or fails
   * with a displayable reason.
   */
  type Compiler = string -> Result<CompiledPattern, string>

  /**
   * The regex engine's `captures`: None when the path does not match;
   * otherwise one entry per capture group, group 0 (the whole match) first,
   * None for a group that did not participate in the match.
   */
  type Captures = (Regex, string) -> Option<seq<Option<string>>>

  /** Percent-decoding of a request path, which may fail with a reason. */
  type PathDecoder = string -> Result<string, string>

  /** Route parameters: parameter name to captured value. */
  type RouteParams = map<string, string>

  /**
   * Per-request metadata stored in the request's extensions. Each part is
   * filled in at a different stage: the remote address on entry, the route
   * parameters when a route matches.
   */
  datatype RequestMeta = RequestMeta(routeParams: Option<RouteParams>, remoteAddr: Option<SocketAddr>)

  function WithRouteParams(params: RouteParams): RequestMeta {
    RequestMeta(Some(params), None)
  }

  function WithRemoteAddr(addr: SocketAddr): RequestMeta {
    RequestMeta(None, Some(addr))
  }

  /** Merges newer metadata into older: every part the newer one carries replaces the older one's. */
  function Extend(older: RequestMeta, newer: RequestMeta): RequestMeta {
    RequestMeta(
      if newer.routeParams.Some? then newer.routeParams else older.routeParams,
      if newer.remoteAddr.Some? then newer.remoteAddr else older.remoteAddr)
  }

  /**
   * The shared, per-request context slot. It is reference-counted in the
   * system, so the request and its request info see the same object.
   */
  class RequestContext {
    constructor () {}
  }

  /** The typed extension slots of a request that this layer uses. */
  datatype Extensions = Extensions(meta: Option<RequestMeta>, context: Option<RequestContext>)

  const NoExtensions := Extensions(None, None)

  /** Installs metadata: merged into metadata already present, inserted otherwise. */
  function UpdateReqMetaInExtensions(ext: Extensions, meta: RequestMeta): Extensions {
    ext.(meta := Some(if ext.meta.Some? then Extend(ext.meta.value, meta) else meta))
  }

  datatype Request<B> = Request(httpMethod: Method, uriPath: string, extensions: Extensions, body: B)

  datatype Response = Response(status: u16, body: Bytes)

  /** The read-only snapshot of a request handed to handlers that ask for it. */
  datatype RequestInfo = RequestInfo(httpMethod: Method, uriPath: string, context: RequestContext)

  function NewRequestInfo<B>(req: Request<B>, context: RequestContext): RequestInfo {
    RequestInfo(req.httpMethod, req.uriPath, context)
  }

  /** An error of the HTTP library, such as a failure while reading a body frame. */
  datatype HyperError = HyperError(description: string)

  /**
   * The boxed error every fallible operation of this layer returns: a message
   * made here, an error a user handler returned, or an HTTP-library error.
   */
  datatype RouteError<E> = Message(text: string) | Handler(source: E) | Hyper(cause: HyperError)

  /** Converts a handler's result into one carrying the boxed error. */
  function Boxed<T, E>(r: Result<T, E>): Result<T, RouteError<E>> {
    match r
    case Success(v) => Success(v)
    case Failure(e) => Failure(Handler(e))
  }

  /** The text `format!("{}: {}", context, cause)` produces. */
  function WithCause(context: string, cause: string): string {
    context + ": " + cause
  }

  predicate StartsWith(s: string, prefix: string) {
    |prefix| <= |s| && s[..|prefix|] == prefix
  }
}
