/**
 * Pre middleware: a path pattern and a handler that transforms the request
 * before a route runs.
 */
module Pre {
  import opened Wrappers
  import opened Types

  /** A pre middleware handler: the request in, the (possibly changed) request or the user's error out. */
  type PreHandler<!B, E> = Request<B> -> Result<Request<B>, E>

  const CompileErrorContext := "Could not create an exact match regex for the pre middleware path"

  datatype PreMiddleware<!B, E> = PreMiddleware(
    path: string,
    regex: Regex,
    // Optional so that mounting a router into another can take the handler out.
    handler: Option<PreHandler<B, E>>,
    // Scope depth with regard to the top-level router.
    scopeDepth: u32)
  {
    /** Runs the handler; its request is passed on unchanged, its error boxed. */
    function Process(req: Request<B>): (r: Result<Request<B>, RouteError<E>>)
      requires handler.Some?
      ensures var out := handler.value(req);
              && (r.Success? <==> out.Success?)
              && (r.Success? ==> r.value == out.value)
              && (r.Failure? ==> r.error == Handler(out.error))
    {
      Boxed(handler.value(req))
    }
  }

  /**
   * A pre middleware at `path`. It fails, with the compiler's reason behind a
   * fixed message, exactly when the path does not compile; the parameter
   * names the compiler reports are not kept.
   */
  function NewWithBoxedHandler<B, E>(path: string, handler: PreHandler<B, E>, scopeDepth: u32, compile: Compiler)
    : (r: Result<PreMiddleware<B, E>, RouteError<E>>)
    ensures r.Success? <==> compile(path).Success?
    ensures r.Success? ==>
              && r.value.path == path
              && r.value.regex == compile(path).value.regex
              && r.value.handler == Some(handler)
              && r.value.scopeDepth == scopeDepth
    ensures r.Failure? ==>
              && r.error == Message(WithCause(CompileErrorContext, compile(path).error))
              && StartsWith(r.error.text, CompileErrorContext)
  {
    match compile(path)
    case Failure(e) => Failure(Message(WithCause(CompileErrorContext, e)))
    case Success(compiled) => Success(PreMiddleware(path, compiled.regex, Some(handler), scopeDepth))
  }

  /** A top-level pre middleware: scope depth 1 and a present handler. */
  function New<B, E>(path: string, handler: PreHandler<B, E>, compile: Compiler): (r: Result<PreMiddleware<B, E>, RouteError<E>>)
    ensures r.Success? <==> compile(path).Success?
    ensures r.Success? ==> r.value.scopeDepth == 1 && r.value.handler == Some(handler) && r.value.path == path
    ensures r.Failure? ==> r.error.Message? && StartsWith(r.error.text, CompileErrorContext)
  {
    NewWithBoxedHandler(path, handler, 1, compile)
  }

  /**
   * Only the regex and the path are kept from compiling: two compilers that
   * agree on the regex give the same middleware whatever parameter names they report.
   */
  lemma NewIgnoresParamNames<B, E>(path: string, handler: PreHandler<B, E>, scopeDepth: u32, c1: Compiler, c2: Compiler)
    requires c1(path).Success? && c2(path).Success? && c1(path).value.regex == c2(path).value.regex
    ensures NewWithBoxedHandler(path, handler, scopeDepth, c1) == NewWithBoxedHandler(path, handler, scopeDepth, c2)
  {
  }
}
