# Routerify-ng dispatch layer, modelled in Dafny

This project models the layer of the Routerify-ng HTTP router that sits around its
pattern compiler and its router: the containers that hold a route, a pre middleware
or a post middleware, the `Middleware` enum that wraps the latter two, and the
request service through which every request enters before the router dispatches it.

- `route.dfy` (module `Route`): a route holds its path, its compiled exact-match
  regex, the ordered names of its path parameters, its HTTP methods, its handler
  and its scope depth. Method matching is list membership. Parameter extraction
  skips capture group 0 and pairs the i-th declared name with capture group i + 1,
  leaving out a group that did not take part in the match. The extraction is a loop
  over a capture iterator, proved equal to the recursive specification `Extract`.
  `Process` installs the parameters in the request metadata, then runs the handler.
- `pre.dfy`, `post.dfy` (modules `Pre`, `Post`): the middleware containers. Their
  constructors compile the path or fail with a fixed message. The plain constructors
  give scope depth 1. A post middleware handler either sees the response alone
  (`WithoutInfo`) or the response and the request info (`WithInfo`). That tag decides
  whether the request info is needed and whether it must be supplied.
- `middleware.dfy` (module `Middleware`): the six constructors of the enum. The
  three without a path use the catch-all path `/*`.
- `request_service.dfy` (module `RequestService`): the request entry. It merges the
  peer address into the request metadata, then percent-decodes the path. It appends a
  single `/` unless the path already ends in one. It builds the request info only
  when the router's flag asks for it, and installs a fresh shared request context.
  For a streamed body, it collects the data of each frame in order and stops at the
  first failed read. The builder runs the router's five initialisation steps in a fixed
  order. Only the pattern-set step can fail.
- `types.dfy` (module `Types`): requests, responses, metadata, the boxed error type,
  and the function types of the collaborators outside the model. `wrappers.dfy`
  (module `Wrappers`): `Option` and `Result`.

The exact-match pattern compiler, the regex engine and the path percent-decoder are
not part of this model. They enter as function-typed parameters (`Compiler`,
`Captures`, `PathDecoder`), so every property holds whatever they do. Handlers are
Dafny functions returning `Result`. The router's dispatch is a function held by the
`Router` class. A panic in the Rust code (`expect`, `unwrap`) becomes a `requires` clause.

## Model

| member | source | states |
|---|---|---|
| `Route.NewWithBoxedHandler` | src/route/mod.rs:60-82 | succeeds exactly when the path compiles; then it stores the path verbatim, the compiler's regex and ordered names, the methods, the handler and the depth; otherwise the error is the fixed "route path" message followed by the compiler's reason |
| `Route.New` | src/route/mod.rs:84-92 | same success condition; a route made this way has scope depth 1, a present handler and the path unchanged; its error text starts with the route-path message |
| `Route.Route.IsMatchMethod` | src/route/mod.rs:94-96 | true exactly when the method occurs somewhere in the route's method list |
| `Route.Extract` | src/route/mod.rs:129-136 | every key of the extracted parameters is one of the declared names |
| `Route.ExtractKeys` | src/route/mod.rs:132-136 | a name is present exactly when one of its positions i has a capture group i + 1 that exists and participated |
| `Route.ExtractLastWins` | src/route/mod.rs:132-135 | a name holds the text of its last participating occurrence's group |
| `Route.ExtractDistinct` | src/route/mod.rs:129-136 | with distinct names, name i is present iff group i + 1 participated, and then holds that group's text |
| `Route.ExtractNoShift` | src/route/mod.rs:132-136 | a group that does not participate removes only its own name; every other name keeps its own group's value |
| `Route.Route.GenerateReqMeta` | src/route/mod.rs:121-141 | the loop over the capture iterator yields metadata whose route parameters are the specified extraction, and no remote address |
| `Route.ParamsForMatch` | src/route/mod.rs:127-136 | on a match with distinct names, name i is present iff capture group i + 1 exists and participated, and then maps to its text; group 0 is never used |
| `Route.ParamsForEmpty` | src/route/mod.rs:121-140 | with no declared names, or when the regex does not match, the parameters are empty whatever the regex engine answers |
| `Route.Route.RequestWithParams` | src/route/mod.rs:113-119 | the request the handler gets has metadata with the extracted parameters, keeps an earlier remote address and the context, and differs from the input in nothing else |
| `Route.Route.PushReqMeta` | src/route/mod.rs:113-115 | installing the generated metadata yields exactly that request |
| `Route.Route.Process` | src/route/mod.rs:98-111 | needs a present handler; succeeds exactly when the handler does on the request carrying the parameters, with its response, and otherwise returns the handler's error boxed |
| `Pre.NewWithBoxedHandler` | src/middleware/pre.rs:30-49 | succeeds exactly when the path compiles; it keeps the path verbatim, the regex, the handler and the depth; otherwise the error is the fixed "pre middleware path" message followed by the compiler's reason |
| `Pre.New` | src/middleware/pre.rs:74-82 | scope depth 1, the given handler present, path unchanged; the error text starts with the pre-middleware message |
| `Pre.NewIgnoresParamNames` | src/middleware/pre.rs:35-48 | the parameter names the compiler reports do not affect the pre middleware |
| `Pre.PreMiddleware.Process` | src/middleware/pre.rs:84-91 | needs a present handler; returns exactly the handler's request on success and its boxed error on failure |
| `Post.NewWithBoxedHandler` | src/middleware/post.rs:43-62 | succeeds exactly when the path compiles; it keeps the path verbatim, the regex, the handler and the depth; otherwise the error is the fixed "post middleware path" message followed by the compiler's reason |
| `Post.New` | src/middleware/post.rs:87-95 | a `WithoutInfo` handler at scope depth 1 that does not require request info |
| `Post.NewWithInfo` | src/middleware/post.rs:132-141 | a `WithInfo` handler at scope depth 1 that requires request info |
| `Post.PostMiddleware.ShouldRequireReqMeta` | src/middleware/post.rs:143-152 | true exactly when the handler is present and is `WithInfo`; a taken handler gives false |
| `Post.PostMiddleware.Process` | src/middleware/post.rs:154-170 | needs a present handler and, for `WithInfo`, the request info; runs the matching variant (the info is passed through) and boxes its error |
| `Post.ProcessIgnoresInfo` | src/middleware/post.rs:165 | a `WithoutInfo` middleware gives the same result whatever request info it is handed |
| `Middleware.PreDefault` | src/middleware/mod.rs:50-56 | is `PreWithPath("/*", ...)` unwrapped: a `Pre` at `/*`, depth 1, never an error when `/*` compiles |
| `Middleware.PostDefault` | src/middleware/mod.rs:77-83 | is `PostWithPath("/*", ...)` unwrapped: a `Post` at `/*` not requiring request info |
| `Middleware.PostWithInfoDefault` | src/middleware/mod.rs:115-121 | is `PostWithInfoWithPath("/*", ...)` unwrapped: a `Post` at `/*` requiring request info |
| `Middleware.PreWithPath` | src/middleware/mod.rs:145-152 | always the `Pre` variant of `Pre.New`'s result; fails exactly when it fails, with its error |
| `Middleware.PostWithPath` | src/middleware/mod.rs:176-183 | the `Post` variant wrapping a `WithoutInfo` handler; fails exactly when the path does not compile |
| `Middleware.PostWithInfoWithPath` | src/middleware/mod.rs:215-222 | the `Post` variant of `Post.NewWithInfo`'s result (path verbatim, scope depth 1), wrapping a `WithInfo` handler, for which `ShouldRequireReqMeta` holds; fails exactly when the path does not compile, with that constructor's error |
| `RequestService.NormalizePath` | src/service/request_service.rs:40-42 | the result ends with `/`, starts with the input and is at most one character longer; it equals the input exactly when the input already ends with `/` (so `""` becomes `"/"`) |
| `RequestService.NormalizePathIdempotent` | src/service/request_service.rs:40-42 | normalising twice equals normalising once |
| `RequestService.CollectBody` | src/service/request_service.rs:174-183 | the frame loop yields exactly `Collect` of the frames |
| `RequestService.CollectSucceedsIff` | src/service/request_service.rs:176-181 | collecting succeeds exactly when every read succeeds |
| `RequestService.CollectFirstError` | src/service/request_service.rs:176-177 | the first failed read's error is the result, whatever follows |
| `RequestService.CollectAppend` | src/service/request_service.rs:176-181 | the body of `a + b` is the body of `a` followed by that of `b`, unless `a` fails |
| `RequestService.CollectSkipsTrailers` | src/service/request_service.rs:178-180 | a frame without data contributes nothing |
| `RequestService.Router.InitGlobalOptionsRoute` | src/service/request_service.rs:73 | records the options-route step and leaves the request-info flag alone |
| `RequestService.Router.InitDefault404Route` | src/service/request_service.rs:74 | records the 404-route step and leaves the flag alone |
| `RequestService.Router.InitErrHandler` | src/service/request_service.rs:76 | records the error-handler step and leaves the flag alone |
| `RequestService.Router.InitRegexSet` | src/service/request_service.rs:78 | records the pattern-set step; fails exactly when building the pattern set fails, with that error |
| `RequestService.Router.InitReqInfoGen` | src/service/request_service.rs:79 | records the step and sets the flag to whether the router needs request info |
| `RequestService.RequestServiceBuilder.New` | src/service/request_service.rs:70-83 | runs options route, 404 route, error handler, pattern set and request-info generation in that order; fails exactly when the pattern set fails (after the first four steps); on success the builder holds this router and the flag is set |
| `RequestService.RequestServiceBuilder.Build` | src/service/request_service.rs:85-90 | the service shares the builder's router and carries exactly the given address |
| `RequestService.RequestService.Enter` | src/service/request_service.rs:35-55 | a decoding failure gives the "Couldn't percent decode request path" error; otherwise the target path is the normalised decoded path, and the request carries the merged remote address and a fresh context; request info exists iff the flag is `Some(true)` and shares that context |
| `RequestService.RequestService.Call` | src/service/request_service.rs:30-61 | on a decoding failure the router is not called and the error is returned; otherwise the router receives the entered request and its answer is returned |
| `RequestService.RequestService.CallIncoming` | src/service/request_service.rs:145-193 | as `Call`; in addition, a failed frame read returns that error and the router is not called; otherwise the router receives the request rebuilt with the collected body |

## Left out

- The exact-match pattern compiler (`generate_exact_match_regex`), the regex engine and `percent_decode_request_path` are not part of this model; they are parameters, so their own behaviour (which patterns compile, what matches) is not modelled.
- The router (`src/router/`) is not part of this model: the `Router` class keeps only what the request service calls. Its dispatch is an arbitrary function. The outcome of building its pattern set, and whether it needs request info, are constants given at construction. The five init steps are recorded as a trace, and their effect on routes and handlers is not modelled.
- The typed data map, `RequestMeta`, `RequestInfo`, `RouteParams`, `RequestContext` and the helpers are not part of this model. They are stubs. `RouteParams::set` is a map insert: for a repeated parameter name, the last participating occurrence wins. Installing metadata in the extensions merges the new metadata's present parts over the parts already there. `RequestInfo` keeps only the method, the path and the shared context; headers and version are left out.
- Async execution, futures, cancellation and boxed trait-object handlers: handlers are total functions that return `Result`.
- The hyper request, response and body types are reduced to the fields this layer reads: method, path, extensions and body; status and body bytes. A route handler gets a request of any body type, not hyper's `Incoming` specifically.
- Panics are preconditions. A handler must be present (it is taken out only when a router is mounted into another). A `WithInfo` post middleware must get request info. The router's request-info flag must be set before a decoded request reaches it. `/*` must compile for the three default constructors.
- `RequestService.RequestService.Call`: the `routed` out-parameter records what the router was called with. Routerify-ng has no such value; it makes "the router is not called" observable.
- `RequestService.RequestService.Enter`: it gathers the statements both `call` bodies share. The remote address is written before decoding. Nothing that survives a decoding failure depends on that order, so the contract does not state it.
- `src/service/router_service.rs` (socket plumbing and the `0.0.0.0:0` peer-address fallback), `src/lib.rs` (re-exports only), `src/main.rs`, the examples and the test support code: I/O and concurrency. The unit test inside `request_service.rs` is not modelled.
- `Debug` implementations: formatting only.
- Scope depth is a 32-bit unsigned value. No arithmetic is done on it in this layer.
