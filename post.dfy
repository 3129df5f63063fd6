/**
 * Post middleware: a path pattern and a handler that transforms the response
 * after the route ran, either from the response alone or from the response
 * and the request info.
 */
module Post {
  import opened Wrappers
  import opened Types

  /** The two kinds of post middleware handler. */
  datatype PostHandler<E> =
    | WithoutInfo(onResponse: Response -> Result<Response, E>)
    | WithInfo(onResponseAndInfo: (Response, RequestInfo) -> Result<Response, E>)

  const CompileErrorContext := "Could not create an exact match regex for the post middleware path"

  datatype PostMiddleware<E> = PostMiddleware(
    path: string,
    regex: Regex,
    // Optional so that mounting a router into another can take the handler out.
    handler: Option<PostHandler<E>>,
    // Scope depth with regard to the top-level router.
    scopeDepth: u32)
  {
    /** Whether running this middleware needs the request info: only a present handler that asks for it does. */
    function ShouldRequireReqMeta(): (r: bool)
      ensures r ==> handler.Some?
      ensures r <==> handler.Some? && handler.value.WithInfo?
    {
      match handler
      case Some(WithInfo(_)) => true
      case Some(WithoutInfo(_)) => false
      case None => false
    }

    /**
     * Runs the handler on the response, handing over the request info when
     * the handler asks for it; a handler error is boxed.
     */
    function Process(res: Response, reqInfo: Option<RequestInfo>): (r: Result<Response, RouteError<E>>)
      requires handler.Some?
      requires ShouldRequireReqMeta() ==> reqInfo.Some?
      ensures var out := if handler.value.WithoutInfo? then handler.value.onResponse(res)
                         else handler.value.onResponseAndInfo(res, reqInfo.value);
              && (r.Success? <==> out.Success?)
              && (r.Success? ==> r.value == out.value)
              && (r.Failure? ==> r.error == Handler(out.error))
    {
      match handler.value
      case WithoutInfo(h) => Boxed(h(res))
      case WithInfo(h) => Boxed(h(res, reqInfo.value))
    }
  }

  /** A handler without info never looks at the request info it is given. */
  lemma ProcessIgnoresInfo<E>(m: PostMiddleware<E>, res: Response, i1: Option<RequestInfo>, i2: Option<RequestInfo>)
    requires m.handler.Some? && m.handler.value.WithoutInfo?
    ensures m.Process(res, i1) == m.Process(res, i2)
  {
  }

  /**
   * A post middleware at `path`. It fails, with the compiler's reason behind a
   * fixed message, exactly when the path does not compile; the parameter
   * names the compiler reports are not kept.
   */
  function NewWithBoxedHandler<E>(path: string, handler: PostHandler<E>, scopeDepth: u32, compile: Compiler)
    : (r: Result<PostMiddleware<E>, RouteError<E>>)
    ensures r.Success? <==> compile(path).Success?
    ensures r.Success? ==>
              && r.value.path == path
              && r.value.regex == compile(path).value.regex
              && r.value.handler == Some(handler)
              && r.value.scopeDepth == scopeDepth
    ensures r.Failure? ==>
              && r.error == Message(WithCause(CompileErrorContext, compile(path).error))
              && StartsWith(r.error.text, CompileErrorContext)
  {
    match compile(path)
    case Failure(e) => Failure(Message(WithCause(CompileErrorContext, e)))
    case Success(compiled) => Success(PostMiddleware(path, compiled.regex, Some(handler), scopeDepth))
  }

  /** A top-level post middleware whose handler sees only the response. */
  function New<E>(path: string, handler: Response -> Result<Response, E>, compile: Compiler)
    : (r: Result<PostMiddleware<E>, RouteError<E>>)
    ensures r.Success? <==> compile(path).Success?
    ensures r.Success? ==>
              && r.value.scopeDepth == 1 && r.value.path == path
              && r.value.handler == Some(WithoutInfo(handler))
              && !r.value.ShouldRequireReqMeta()
    ensures r.Failure? ==> r.error.Message? && StartsWith(r.error.text, CompileErrorContext)
  {
    NewWithBoxedHandler(path, WithoutInfo(handler), 1, compile)
  }

  /** A top-level post middleware whose handler also reads the request info. */
  function NewWithInfo<E>(path: string, handler: (Response, RequestInfo) -> Result<Response, E>, compile: Compiler)
    : (r: Result<PostMiddleware<E>, RouteError<E>>)
    ensures r.Success? <==> compile(path).Success?
    ensures r.Success? ==>
              && r.value.scopeDepth == 1 && r.value.path == path
              && r.value.handler == Some(WithInfo(handler))
              && r.value.ShouldRequireReqMeta()
    ensures r.Failure? ==> r.error.Message? && StartsWith(r.error.text, CompileErrorContext)
  {
    NewWithBoxedHandler(path, WithInfo(handler), 1, compile)
  }
}
