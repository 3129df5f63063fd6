/**
 * The per-connection request service: the entry point a request goes through
 * before the router dispatches it. It records the peer address in the request
 * metadata, percent-decodes and normalises the path, builds the request info
 * when the router needs it, installs a fresh request context and, for a
 * streamed body, collects the frames into one byte buffer.
 *
 * The router itself is represented only by what this layer calls on it: its
 * initialisation steps, the request-info flag they set, and its dispatch.
 */
module RequestService {
  import opened Wrappers
  import opened Types

  const DecodeErrorContext := "Couldn't percent decode request path"

  /*------------------------------------------------------------------------
   * Path normalisation
   *------------------------------------------------------------------------*/

  predicate EndsWithSlash(path: string) {
    |path| > 0 && path[|path| - 1] == '/'
  }

  /**
   * The path the router matches against: the decoded path with one `/`
   * appended unless it already ends in one. ('/' is a single byte in UTF-8,
   * so its last byte is '/' exactly when its last character is.)
   */
  function NormalizePath(path: string): (r: string)
    ensures EndsWithSlash(r)
    ensures |path| <= |r| <= |path| + 1 && r[..|path|] == path
    ensures r == path <==> EndsWithSlash(path)
  {
    if !EndsWithSlash(path) then path + "/" else path
  }

  lemma NormalizePathIdempotent(path: string)
    ensures NormalizePath(NormalizePath(path)) == NormalizePath(path)
  {
  }

  /*------------------------------------------------------------------------
   * Streamed bodies
   *------------------------------------------------------------------------*/

  /** One frame of a streamed body: a chunk of data, or trailers that carry none. */
  datatype Frame = DataFrame(data: Bytes) | TrailersFrame(trailers: seq<(string, string)>)

  /** A streamed body: the results of successive reads, in order, until the stream ends. */
  type IncomingBody = seq<Result<Frame, HyperError>>

  function DataRef(frame: Frame): Option<Bytes> {
    if frame.DataFrame? then Some(frame.data) else None
  }

  /** Puts `prefix` in front of a successful collection; keeps an error. */
  function Prepend(prefix: Bytes, r: Result<Bytes, HyperError>): Result<Bytes, HyperError> {
    match r
    case Success(rest) => Success(prefix + rest)
    case Failure(e) => Failure(e)
  }

  /** The whole body of a stream: its data chunks in order, or the error of the first failed read. */
  function Collect(frames: IncomingBody): Result<Bytes, HyperError> {
    if frames == [] then Success([])
    else match frames[0]
      case Failure(e) => Failure(e)
      case Success(f) => Prepend(if DataRef(f).Some? then DataRef(f).value else [], Collect(frames[1..]))
  }

  /** Reads frames until the stream ends, appending the data of each; stops at the first failed read. */
  method CollectBody(body: IncomingBody) returns (r: Result<Bytes, HyperError>)
    ensures r == Collect(body)
  {
    var buf: Bytes := [];
    var i := 0;
    assert body[i..] == body;
    PrependNothing(Collect(body));
    while i < |body|
      invariant i <= |body|
      invariant Collect(body) == Prepend(buf, Collect(body[i..]))
    {
      var frame := body[i];
      assert body[i..][0] == frame && body[i..][1..] == body[i + 1..];
      if frame.Failure? {
        assert Collect(body[i..]) == Failure(frame.error);
        return Failure(frame.error);
      }
      var data := DataRef(frame.value);
      assert Collect(body[i..]) == Prepend(if data.Some? then data.value else [], Collect(body[i + 1..]));
      if data.Some? {
        PrependPrepend(buf, data.value, Collect(body[i + 1..]));
        buf := buf + data.value;
      } else {
        PrependNothing(Collect(body[i + 1..]));
      }
      i := i + 1;
    }
    assert body[i..] == [] && buf + [] == buf;
    r := Success(buf);
  }

  lemma PrependNothing(r: Result<Bytes, HyperError>)
    ensures Prepend([], r) == r
  {
    if r.Success? {
      assert [] + r.value == r.value;
    }
  }

  lemma PrependPrepend(first: Bytes, second: Bytes, r: Result<Bytes, HyperError>)
    ensures Prepend(first, Prepend(second, r)) == Prepend(first + second, r)
  {
    if r.Success? {
      assert first + (second + r.value) == (first + second) + r.value;
    }
  }

  /** Collecting succeeds exactly when every read succeeds. */
  lemma {:induction false} CollectSucceedsIff(frames: IncomingBody)
    ensures Collect(frames).Success? <==> forall i :: 0 <= i < |frames| ==> frames[i].Success?
    decreases |frames|
  {
    if frames != [] {
      CollectSucceedsIff(frames[1..]);
      assert forall i :: 1 <= i < |frames| ==> frames[i] == frames[1..][i - 1];
    }
  }

  /** The first failed read decides the error, whatever follows it. */
  lemma {:induction false} CollectFirstError(frames: IncomingBody, k: nat)
    requires k < |frames| && frames[k].Failure?
    requires forall j :: 0 <= j < k ==> frames[j].Success?
    ensures Collect(frames) == Failure(frames[k].error)
    decreases k
  {
    if k > 0 {
      CollectFirstError(frames[1..], k - 1);
    }
  }

  /** Collecting is streaming: the body of `a + b` is that of `a` followed by that of `b`, unless `a` failed. */
  lemma {:induction false} CollectAppend(a: IncomingBody, b: IncomingBody)
    ensures Collect(a + b) == match Collect(a)
                              case Failure(e) => Failure(e)
                              case Success(x) => Prepend(x, Collect(b))
    decreases |a|
  {
    if a == [] {
      assert a + b == b;
      PrependNothing(Collect(b));
    } else {
      assert (a + b)[0] == a[0] && (a + b)[1..] == a[1..] + b;
      CollectAppend(a[1..], b);
      if a[0].Success? && Collect(a[1..]).Success? {
        var f := a[0].value;
        PrependPrepend(if DataRef(f).Some? then DataRef(f).value else [], Collect(a[1..]).value, Collect(b));
      }
    }
  }

  /** A frame without data contributes nothing to the body. */
  lemma CollectSkipsTrailers(a: IncomingBody, t: seq<(string, string)>, b: IncomingBody)
    ensures Collect(a + [Success(TrailersFrame(t))] + b) == Collect(a + b)
  {
    var rest := [Success(TrailersFrame(t))] + b;
    assert a + [Success(TrailersFrame(t))] + b == a + rest;
    assert rest[0] == Success(TrailersFrame(t)) && rest[1..] == b;
    PrependNothing(Collect(b));
    assert Collect(rest) == Collect(b);
    CollectAppend(a, rest);
    CollectAppend(a, b);
  }

  /*------------------------------------------------------------------------
   * The router, as seen from the request service
   *------------------------------------------------------------------------*/

  /** The router's initialisation steps. */
  datatype InitStep = GlobalOptionsRoute | Default404Route | ErrHandler | RegexSet | ReqInfoGen

  /** The router's dispatch of a request: target path, request and optional request info in, response out. */
  type RouterProcess<E> = (string, Request<Bytes>, Option<RequestInfo>) -> Result<Response, RouteError<E>>

  class Router<E> {
    /** The initialisation steps run on this router so far, in order. */
    var initialized: seq<InitStep>
    /** Whether requests need request info; unset until initialised. */
    var shouldGenReqInfo: Option<bool>
    /** What building the combined pattern set of this router's items reports, if it fails. */
    const regexSetError: Option<RouteError<E>>
    /** Whether some post middleware or the error handler of this router reads the request info. */
    const needsReqInfo: bool
    const process: RouterProcess<E>

    constructor (regexSetError: Option<RouteError<E>>, needsReqInfo: bool, process: RouterProcess<E>)
      ensures initialized == [] && shouldGenReqInfo == None
      ensures this.regexSetError == regexSetError && this.needsReqInfo == needsReqInfo && this.process == process
    {
      this.regexSetError := regexSetError;
      this.needsReqInfo := needsReqInfo;
      this.process := process;
      initialized := [];
      shouldGenReqInfo := None;
    }

    method InitGlobalOptionsRoute()
      modifies this
      ensures initialized == old(initialized) + [GlobalOptionsRoute]
      ensures shouldGenReqInfo == old(shouldGenReqInfo)
    {
      initialized := initialized + [GlobalOptionsRoute];
    }

    method InitDefault404Route()
      modifies this
      ensures initialized == old(initialized) + [Default404Route]
      ensures shouldGenReqInfo == old(shouldGenReqInfo)
    {
      initialized := initialized + [Default404Route];
    }

    method InitErrHandler()
      modifies this
      ensures initialized == old(initialized) + [ErrHandler]
      ensures shouldGenReqInfo == old(shouldGenReqInfo)
    {
      initialized := initialized + [ErrHandler];
    }

    method InitRegexSet() returns (r: Result<(), RouteError<E>>)
      modifies this
      ensures initialized == old(initialized) + [RegexSet]
      ensures shouldGenReqInfo == old(shouldGenReqInfo)
      ensures r.Failure? <==> regexSetError.Some?
      ensures r.Failure? ==> r.error == regexSetError.value
    {
      initialized := initialized + [RegexSet];
      r := if regexSetError.Some? then Failure(regexSetError.value) else Success(());
    }

    method InitReqInfoGen()
      modifies this
      ensures initialized == old(initialized) + [ReqInfoGen]
      ensures shouldGenReqInfo == Some(needsReqInfo)
    {
      initialized := initialized + [ReqInfoGen];
      shouldGenReqInfo := Some(needsReqInfo);
    }
  }

  /*------------------------------------------------------------------------
   * The service and its builder
   *------------------------------------------------------------------------*/

  /** What the service hands to the router: the target path, the request and the request info. */
  datatype Dispatch<B> = Dispatch(targetPath: string, req: Request<B>, reqInfo: Option<RequestInfo>)

  const SetUpSteps := [GlobalOptionsRoute, Default404Route, ErrHandler, RegexSet, ReqInfoGen]

  datatype RequestServiceBuilder<E> = RequestServiceBuilder(router: Router<E>)
  {
    /**
     * Runs the router's initialisation steps in their fixed order; only
     * building the pattern set can fail, and then request-info generation
     * is not reached.
     */
    static method New(router: Router<E>) returns (r: Result<RequestServiceBuilder<E>, RouteError<E>>)
      modifies router
      ensures r.Failure? <==> router.regexSetError.Some?
      ensures r.Failure? ==> r.error == router.regexSetError.value
      ensures r.Failure? ==> router.initialized == old(router.initialized) + SetUpSteps[..4]
      ensures r.Success? ==> router.initialized == old(router.initialized) + SetUpSteps
      ensures r.Success? ==> r.value.router == router && router.shouldGenReqInfo == Some(router.needsReqInfo)
    {
      router.InitGlobalOptionsRoute();
      router.InitDefault404Route();
      router.InitErrHandler();
      var regexSet := router.InitRegexSet();
      if regexSet.Failure? {
        return Failure(regexSet.error);
      }
      router.InitReqInfoGen();
      r := Success(RequestServiceBuilder(router));
    }

    /** A service for one connection: it shares this builder's router. */
    function Build(remoteAddr: SocketAddr): (s: RequestService<E>)
      ensures s.router == router && s.remoteAddr == remoteAddr
    {
      RequestService(router, remoteAddr)
    }
  }

  datatype RequestService<E> = RequestService(router: Router<E>, remoteAddr: SocketAddr)
  {
    /**
     * What the router receives for request `req` whose path decoded to
     * `decoded`, whose body is then `body`, and whose new context is `context`:
     * the normalised path; the request with the peer address merged into its
     * metadata and the context installed; and request info, sharing the same
     * context, exactly when the router's flag asks for it.
     */
    ghost predicate Entered<B, C>(req: Request<B>, decoded: string, body: C, context: RequestContext, d: Dispatch<C>)
      reads router
    {
      && d.targetPath == NormalizePath(decoded)
      && d.req == Request(req.httpMethod, req.uriPath,
                          UpdateReqMetaInExtensions(req.extensions, WithRemoteAddr(remoteAddr)).(context := Some(context)),
                          body)
      && (d.reqInfo.Some? <==> router.shouldGenReqInfo == Some(true))
      && (d.reqInfo.Some? ==> d.reqInfo.value == NewRequestInfo(req, context))
    }

    /** The steps both entry points share: metadata, path, request info, context. */
    method Enter<B>(req: Request<B>, decode: PathDecoder) returns (r: Result<Dispatch<B>, RouteError<E>>)
      requires decode(req.uriPath).Success? ==> router.shouldGenReqInfo.Some?
      ensures decode(req.uriPath).Failure? ==>
                r == Failure(Message(WithCause(DecodeErrorContext, decode(req.uriPath).error)))
      ensures decode(req.uriPath).Success? ==>
                && r.Success? && r.value.req.extensions.context.Some?
                && fresh(r.value.req.extensions.context.value)
                && Entered(req, decode(req.uriPath).value, req.body, r.value.req.extensions.context.value, r.value)
    {
      var req := req;
      req := req.(extensions := UpdateReqMetaInExtensions(req.extensions, WithRemoteAddr(remoteAddr)));
      var decoded := decode(req.uriPath);
      if decoded.Failure? {
        return Failure(Message(WithCause(DecodeErrorContext, decoded.error)));
      }
      var targetPath := decoded.value;
      if targetPath == [] || targetPath[|targetPath| - 1] != '/' {
        targetPath := targetPath + "/";
      }
      var reqInfo: Option<RequestInfo> := None;
      var shouldGenReqInfo := router.shouldGenReqInfo.value;
      var context := new RequestContext();
      if shouldGenReqInfo {
        reqInfo := Some(NewRequestInfo(req, context));
      }
      req := req.(extensions := req.extensions.(context := Some(context)));
      r := Success(Dispatch(targetPath, req, reqInfo));
    }

    /**
     * Serves a request whose body is already in memory. A path that cannot be
     * decoded is an error and the router is not called; otherwise the router's
     * answer is the service's answer.
     */
    method Call(req: Request<Bytes>, decode: PathDecoder) returns (r: Result<Response, RouteError<E>>, routed: Option<Dispatch<Bytes>>)
      requires decode(req.uriPath).Success? ==> router.shouldGenReqInfo.Some?
      ensures decode(req.uriPath).Failure? ==>
                && routed.None?
                && r == Failure(Message(WithCause(DecodeErrorContext, decode(req.uriPath).error)))
      ensures decode(req.uriPath).Success? ==>
                && routed.Some? && routed.value.req.extensions.context.Some?
                && fresh(routed.value.req.extensions.context.value)
                && Entered(req, decode(req.uriPath).value, req.body, routed.value.req.extensions.context.value, routed.value)
                && r == router.process(routed.value.targetPath, routed.value.req, routed.value.reqInfo)
    {
      var entered := Enter(req, decode);
      if entered.Failure? {
        return Failure(entered.error), None;
      }
      var d := entered.value;
      routed := Some(d);
      r := router.process(d.targetPath, d.req, d.reqInfo);
    }

    /**
     * Serves a request whose body is streamed: after the common steps the
     * frames are collected; a failed read is an error and the router is not
     * called; otherwise the router gets the request with the collected body.
     */
    method CallIncoming(req: Request<IncomingBody>, decode: PathDecoder)
      returns (r: Result<Response, RouteError<E>>, routed: Option<Dispatch<Bytes>>)
      requires decode(req.uriPath).Success? ==> router.shouldGenReqInfo.Some?
      ensures decode(req.uriPath).Failure? ==>
                && routed.None?
                && r == Failure(Message(WithCause(DecodeErrorContext, decode(req.uriPath).error)))
      ensures decode(req.uriPath).Success? && Collect(req.body).Failure? ==>
                && routed.None?
                && r == Failure(Hyper(Collect(req.body).error))
      ensures decode(req.uriPath).Success? && Collect(req.body).Success? ==>
                && routed.Some? && routed.value.req.extensions.context.Some?
                && fresh(routed.value.req.extensions.context.value)
                && Entered(req, decode(req.uriPath).value, Collect(req.body).value,
                           routed.value.req.extensions.context.value, routed.value)
                && r == router.process(routed.value.targetPath, routed.value.req, routed.value.reqInfo)
    {
      var entered := Enter(req, decode);
      if entered.Failure? {
        return Failure(entered.error), None;
      }
      var d := entered.value;
      var collected := CollectBody(d.req.body);
      if collected.Failure? {
        return Failure(Hyper(collected.error)), None;
      }
      // The request is split into its parts and its body, and rebuilt with the collected body.
      var parts := d.req;
      var rebuilt := Request(parts.httpMethod, parts.uriPath, parts.extensions, collected.value);
      routed := Some(Dispatch(d.targetPath, rebuilt, d.reqInfo));
      r := router.process(d.targetPath, rebuilt, d.reqInfo);
    }
  }
}
