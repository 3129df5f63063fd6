/**
 * The middleware enum and its constructors: a pre or a post middleware, at a
 * given path or at the catch-all path that matches every request.
 */
module Middleware {
  import opened Wrappers
  import opened Types
  import Pre
  import Post

  /** The path a middleware applies to when none is given. */
  const AnyPath := "/*"

  datatype Middleware<!B, E> = Pre(pre: Pre.PreMiddleware<B, E>) | Post(post: Post.PostMiddleware<E>)

  /** A pre middleware at `path`; fails exactly when the pre middleware cannot be made. */
  function PreWithPath<B, E>(path: string, handler: Pre.PreHandler<B, E>, compile: Compiler)
    : (r: Result<Middleware<B, E>, RouteError<E>>)
    ensures r.Success? <==> Pre.New(path, handler, compile).Success?
    ensures r.Success? ==> r.value == Middleware.Pre(Pre.New(path, handler, compile).value)
    ensures r.Failure? ==> r.error == Pre.New(path, handler, compile).error
  {
    var m :- Pre.New(path, handler, compile);
    Success(Middleware.Pre(m))
  }

  /** A post middleware at `path` whose handler sees only the response. */
  function PostWithPath<B, E>(path: string, handler: Response -> Result<Response, E>, compile: Compiler)
    : (r: Result<Middleware<B, E>, RouteError<E>>)
    ensures r.Success? <==> compile(path).Success?
    ensures r.Success? ==> r.value.Post? && r.value.post.handler == Some(Post.WithoutInfo(handler))
    ensures r.Success? ==> r.value == Middleware.Post(Post.New(path, handler, compile).value)
    ensures r.Failure? ==> r.error == Post.New(path, handler, compile).error
  {
    var m :- Post.New(path, handler, compile);
    Success(Middleware.Post(m))
  }

  /** A post middleware at `path` whose handler also reads the request info. */
  function PostWithInfoWithPath<B, E>(path: string, handler: (Response, RequestInfo) -> Result<Response, E>, compile: Compiler)
    : (r: Result<Middleware<B, E>, RouteError<E>>)
    ensures r.Success? <==> compile(path).Success?
    ensures r.Success? ==> r.value.Post? && r.value.post.handler == Some(Post.WithInfo(handler))
    ensures r.Success? ==> r.value.post.ShouldRequireReqMeta()
    ensures r.Success? ==> r.value == Middleware.Post(Post.NewWithInfo(path, handler, compile).value)
    ensures r.Failure? ==> r.error == Post.NewWithInfo(path, handler, compile).error
  {
    var m :- Post.NewWithInfo(path, handler, compile);
    Success(Middleware.Post(m))
  }

  /** A pre middleware at every path; the catch-all path must compile (Routerify-ng unwraps the result). */
  function PreDefault<B, E>(handler: Pre.PreHandler<B, E>, compile: Compiler): (m: Middleware<B, E>)
    requires compile(AnyPath).Success?
    ensures PreWithPath(AnyPath, handler, compile) == Success(m)
    ensures m.Pre? && m.pre.path == AnyPath && m.pre.scopeDepth == 1
  {
    PreWithPath(AnyPath, handler, compile).value
  }

  /** A post middleware at every path whose handler sees only the response. */
  function PostDefault<B, E>(handler: Response -> Result<Response, E>, compile: Compiler): (m: Middleware<B, E>)
    requires compile(AnyPath).Success?
    ensures PostWithPath(AnyPath, handler, compile) == Success(m)
    ensures m.Post? && m.post.path == AnyPath && m.post.scopeDepth == 1 && !m.post.ShouldRequireReqMeta()
  {
    PostWithPath(AnyPath, handler, compile).value
  }

  /** A post middleware at every path whose handler also reads the request info. */
  function PostWithInfoDefault<B, E>(handler: (Response, RequestInfo) -> Result<Response, E>, compile: Compiler)
    : (m: Middleware<B, E>)
    requires compile(AnyPath).Success?
    ensures PostWithInfoWithPath(AnyPath, handler, compile) == Success(m)
    ensures m.Post? && m.post.path == AnyPath && m.post.scopeDepth == 1 && m.post.ShouldRequireReqMeta()
  {
    PostWithInfoWithPath(AnyPath, handler, compile).value
  }
}
