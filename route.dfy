/**
 * A single route: a path pattern compiled to an exact-match regex together
 * with the ordered names of its parameters, the HTTP methods it answers and
 * its handler. On a match it extracts the path parameters into the request
 * metadata and then runs the handler.
 */
module Route {
  import opened Wrappers
  import opened Types

  /** A route handler: takes the request, yields a response or the user's error. */
  type RouteHandler<!B, E> = Request<B> -> Result<Response, E>

  const CompileErrorContext := "Could not create an exact match regex for the route path"

  predicate NoDuplicates(names: seq<string>) {
    forall i, j :: 0 <= i < j < |names| ==> names[i] != names[j]
  }

  /** The capture groups after the whole match (group 0). */
  function Groups(caps: seq<Option<string>>): (groups: seq<Option<string>>)
    ensures |caps| > 0 ==> groups == caps[1..]
  {
    if |caps| == 0 then [] else caps[1..]
  }

  /** What is left of a capture iterator over `s` after `k` calls to `next`. */
  function Drop<T>(s: seq<T>, k: nat): seq<T> {
    if k <= |s| then s[k..] else []
  }

  /** Whether capture group `i + 1` exists and took part in the match. */
  predicate Participates(groups: seq<Option<string>>, i: nat) {
    i < |groups| && groups[i].Some?
  }

  /**
   * The route parameters obtained by pairing, in order, the i-th name with the
   * i-th group after the whole match and keeping each name whose group
   * participated; a later occurrence of a name overwrites an earlier one.
   */
  function Extract(names: seq<string>, groups: seq<Option<string>>): (params: RouteParams)
    ensures forall k :: k in params ==> k in names
    decreases |names|
  {
    if names == [] then map[]
    else
      var n := |names| - 1;
      var earlier := Extract(names[..n], groups);
      if Participates(groups, n) then earlier[names[n] := groups[n].value] else earlier
  }

  /** A name is a key of the extracted parameters exactly when one of its occurrences has a participating group. */
  lemma {:induction false} ExtractKeys(names: seq<string>, groups: seq<Option<string>>, k: string)
    ensures k in Extract(names, groups) <==>
            exists i :: 0 <= i < |names| && names[i] == k && Participates(groups, i)
    decreases |names|
  {
    if names != [] {
      var n := |names| - 1;
      var prefix := names[..n];
      ExtractKeys(prefix, groups, k);
      if k in Extract(prefix, groups) {
        var i :| 0 <= i < |prefix| && prefix[i] == k && Participates(groups, i);
        assert names[i] == k;
      }
      if exists i :: 0 <= i < |names| && names[i] == k && Participates(groups, i) {
        var i :| 0 <= i < |names| && names[i] == k && Participates(groups, i);
        if i < n {
          assert prefix[i] == k;
        }
      }
    }
  }

  /** A name takes the value of its last occurrence whose group participated. */
  lemma {:induction false} ExtractLastWins(names: seq<string>, groups: seq<Option<string>>, i: nat)
    requires i < |names| && Participates(groups, i)
    requires forall j :: i < j < |names| && Participates(groups, j) ==> names[j] != names[i]
    ensures names[i] in Extract(names, groups)
    ensures Extract(names, groups)[names[i]] == groups[i].value
    decreases |names|
  {
    var n := |names| - 1;
    if i < n {
      var prefix := names[..n];
      assert prefix[i] == names[i];
      ExtractLastWins(prefix, groups, i);
    }
  }

  /**
   * With distinct names, the i-th name is present exactly when group i + 1
   * participated, and then holds that group's text.
   */
  lemma {:induction false} ExtractDistinct(names: seq<string>, groups: seq<Option<string>>, i: nat)
    requires NoDuplicates(names) && i < |names|
    ensures names[i] in Extract(names, groups) <==> Participates(groups, i)
    ensures Participates(groups, i) ==> Extract(names, groups)[names[i]] == groups[i].value
  {
    if Participates(groups, i) {
      ExtractLastWins(names, groups, i);
    } else {
      ExtractKeys(names, groups, names[i]);
    }
  }

  /**
   * A group that did not participate removes only its own name: every other
   * name keeps its own group's value, nothing shifts.
   */
  lemma ExtractNoShift(names: seq<string>, groups: seq<Option<string>>, j: nat, i: nat)
    requires NoDuplicates(names) && j < |groups| && i < |names| && i != j
    ensures var before, after := Extract(names, groups), Extract(names, groups[j := None]);
            (names[i] in after <==> names[i] in before) &&
            (names[i] in after ==> after[names[i]] == before[names[i]])
  {
    ExtractDistinct(names, groups, i);
    ExtractDistinct(names, groups[j := None], i);
  }

  datatype Route<!B, E> = Route(
    path: string,
    regex: Regex,
    routeParams: seq<string>,
    // Optional so that mounting a router into another can take the handler out.
    handler: Option<RouteHandler<B, E>>,
    methods: seq<Method>,
    // Scope depth with regard to the top-level router.
    scopeDepth: u32)
  {
    function IsMatchMethod(m: Method): (r: bool)
      ensures r <==> exists i :: 0 <= i < |methods| && methods[i] == m
    {
      m in methods
    }

    /** The route parameters a request to `targetPath` receives. */
    function ParamsFor(targetPath: string, captures: Captures): RouteParams {
      if |routeParams| == 0 then map[]
      else match captures(regex, targetPath)
        case None => map[]
        case Some(caps) => Extract(routeParams, Groups(caps))
    }

    method GenerateReqMeta(targetPath: string, captures: Captures) returns (meta: RequestMeta)
      ensures meta == WithRouteParams(ParamsFor(targetPath, captures))
    {
      var names := routeParams;
      var ln := |names|;
      var params: RouteParams := map[];
      if ln > 0 {
        var caps := captures(regex, targetPath);
        if caps.Some? {
          var iter := caps.value;
          // The first group is the whole path: skip it.
          iter := if iter == [] then [] else iter[1..];
          var k := 0;
          while k < ln
            invariant k <= ln
            invariant iter == Drop(Groups(caps.value), k)
            invariant params == Extract(names[..k], Groups(caps.value))
          {
            var next: Option<Option<string>> := if iter == [] then None else Some(iter[0]);
            iter := if iter == [] then [] else iter[1..];
            if next.Some? && next.value.Some? {
              params := params[names[k] := next.value.value];
            }
            assert names[..k + 1][..k] == names[..k];
            k := k + 1;
          }
          assert names[..ln] == names;
        }
      }
      meta := WithRouteParams(params);
    }

    /** The request the handler receives: its metadata carries the extracted parameters. */
    function RequestWithParams(req: Request<B>, targetPath: string, captures: Captures): (r: Request<B>)
      ensures r.extensions.meta.Some?
      ensures r.extensions.meta.value.routeParams == Some(ParamsFor(targetPath, captures))
      ensures req.extensions.meta.Some? ==>
                r.extensions.meta.value.remoteAddr == req.extensions.meta.value.remoteAddr
      ensures r.extensions.context == req.extensions.context
      ensures r.(extensions := req.extensions) == req
    {
      req.(extensions := UpdateReqMetaInExtensions(req.extensions, WithRouteParams(ParamsFor(targetPath, captures))))
    }

    method PushReqMeta(targetPath: string, req: Request<B>, captures: Captures) returns (pushed: Request<B>)
      ensures pushed == RequestWithParams(req, targetPath, captures)
    {
      var meta := GenerateReqMeta(targetPath, captures);
      pushed := req.(extensions := UpdateReqMetaInExtensions(req.extensions, meta));
    }

    /** Installs the route parameters, then runs the handler; a handler error is boxed. */
    method Process(targetPath: string, req: Request<B>, captures: Captures) returns (r: Result<Response, RouteError<E>>)
      requires handler.Some?
      ensures var out := handler.value(RequestWithParams(req, targetPath, captures));
              (r.Success? <==> out.Success?) &&
              (r.Success? ==> r.value == out.value) &&
              (r.Failure? ==> r.error == Handler(out.error))
    {
      var pushed := PushReqMeta(targetPath, req, captures);
      var h := handler.value;
      r := Boxed(h(pushed));
    }
  }

  /**
   * A route at `path`: fails, with the compiler's reason behind a fixed
   * message, exactly when the path does not compile.
   */
  function NewWithBoxedHandler<B, E>(path: string, methods: seq<Method>, handler: RouteHandler<B, E>,
                                     scopeDepth: u32, compile: Compiler): (r: Result<Route<B, E>, RouteError<E>>)
    ensures r.Success? <==> compile(path).Success?
    ensures r.Success? ==>
              && r.value.path == path
              && r.value.regex == compile(path).value.regex
              && r.value.routeParams == compile(path).value.params
              && r.value.handler == Some(handler)
              && r.value.methods == methods
              && r.value.scopeDepth == scopeDepth
    ensures r.Failure? ==>
              && r.error == Message(WithCause(CompileErrorContext, compile(path).error))
              && StartsWith(r.error.text, CompileErrorContext)
  {
    match compile(path)
    case Failure(e) => Failure(Message(WithCause(CompileErrorContext, e)))
    case Success(compiled) => Success(Route(path, compiled.regex, compiled.params, Some(handler), methods, scopeDepth))
  }

  /** A top-level route: scope depth 1 and a present handler. */
  function New<B, E>(path: string, methods: seq<Method>, handler: RouteHandler<B, E>, compile: Compiler): (r: Result<Route<B, E>, RouteError<E>>)
    ensures r.Success? <==> compile(path).Success?
    ensures r.Success? ==> r.value.scopeDepth == 1 && r.value.handler.Some? && r.value.path == path
    ensures r.Failure? ==> r.error.Message? && StartsWith(r.error.text, CompileErrorContext)
  {
    NewWithBoxedHandler(path, methods, handler, 1, compile)
  }

  /**
   * When the route matches, its parameters are exactly the distinct declared
   * names paired with capture groups 1, 2, ...; group 0 is never stored.
   */
  lemma ParamsForMatch<B, E>(route: Route<B, E>, targetPath: string, captures: Captures, caps: seq<Option<string>>, i: nat)
    requires captures(route.regex, targetPath) == Some(caps)
    requires NoDuplicates(route.routeParams) && i < |route.routeParams|
    ensures var params, name := route.ParamsFor(targetPath, captures), route.routeParams[i];
            && (name in params <==> i + 1 < |caps| && caps[i + 1].Some?)
            && (name in params ==> params[name] == caps[i + 1].value)
  {
    ExtractDistinct(route.routeParams, Groups(caps), i);
  }

  /** With no declared names, or no match, the parameters are empty whatever the regex engine says. */
  lemma ParamsForEmpty<B, E>(route: Route<B, E>, targetPath: string, captures: Captures)
    requires |route.routeParams| == 0 || captures(route.regex, targetPath).None?
    ensures route.ParamsFor(targetPath, captures) == map[]
  {
  }
}
