# wp-fastendpoints request core, in Dafny

This project models the request-handling core of wp-fastendpoints, a
WordPress library for declaring REST endpoints, and proves properties of
the model. The core covers these parts:

- **Routers.** A router groups endpoints under one REST namespace. Routers
  form a tree: the root supplies the namespace and each sub-router a REST
  base. `register` hooks every router of the tree. It also copies the
  parent's plugins, injectables and exception handlers down to each
  sub-router. `registerEndpoints` then registers every endpoint with
  WordPress and hands the router's injectables to the endpoint's invoker.
- **Endpoints.** An endpoint carries its registration arguments (`register`,
  `getRoute`) and its permission handlers (`permission`, `hasCap` with its
  `<name>` placeholders). It also carries the request lifecycle
  (`callback`, `permissionCallback`, `runHandlers`), in which caught
  exceptions become `WP_Error` values with status 422 or 500.
- **The dependency-injection invoker.** It runs three resolver stages in a
  fixed order, then calls the handler:
  - static: `request`, `response` and `endpoint` by effective name;
  - inject: named injectables, with memoisation and loop detection;
  - validation: the validator reads a lazily loaded view of the request.
- **`LazyLoadParameters`.** The view the validator reads. An index access
  tracks the parameter being read; a name access looks the value up by the
  parameter's `From` attributes and type, and stores it.
- **`WpError`.** An error whose message is the first leaf of a possibly
  nested message array, with the status in its data.
- **`depends`.** The append-only plugin list that routers and endpoints
  share.

The modules are:

| file | module | models |
|---|---|---|
| `php_strings.dfy` | `PhpStrings` | `trim`, `explode`/`implode` on one character, falsy strings, `(string)` of an integer |
| `values.dfy` | `Values` | PHP values, the REST request and response, parameter descriptors, callables, thrown objects |
| `wp_error.dfy` | `WpErrors` | `src/Helpers/WpError.php` |
| `plugin_depends.dfy` | `PluginDepends` | `src/PluginDependsTrait.php` |
| `lazy_load_parameters.dfy` | `LazyLoad` | `src/DI/LazyLoadParameters.php` |
| `static_resolver.dfy` | `StaticResolver` | `src/DI/StaticParameterResolver.php` |
| `validation_resolver.dfy` | `ValidationResolver` | `src/DI/ValidationParameterResolver.php` |
| `inject_resolver.dfy` | `Injection` | `src/DI/InjectParameterResolver.php` and the resolver chain of `src/DI/Invoker.php` |
| `endpoint.dfy` | `Endpoints` | `src/Endpoint.php` |
| `router.dfy` | `Routers` | `src/Router.php` |

### How the model is built

- **Stateful objects are classes.** `Router`, `Endpoint`,
  `InjectParameterResolver`, `Invoker`, `LazyLoadParameters` and the REST
  response update their fields in place, so they are classes with
  `modifies` frames.
- **Loops are methods with invariants.** Each loop of the source is a
  method checked against a specification function or predicate:
  - `RunSpec` for `runHandlers`;
  - `FindSpec` and `UnionSpec` for `find`;
  - `MergedSources` for `getFromParams`;
  - `NumericArgs` for `convertToNumericArgs`;
  - `Inherit` for the copy-down loops;
  - `Prepared` and `CopiedDown` for the two registration loops.
- **The resolver chain.** `Invoker.call` and the inject stage call each
  other, so their specification is a family of mutually recursive functions
  over values: `CallOutcome`, `FillOutcome`, `ResolveOutcome` and
  `Invocation`. Each maps the resolver's bookkeeping (`Trail`: call stack,
  memo, the arguments each memoised call received, null results, the
  invocation log) to an outcome and the new bookkeeping. The methods are
  proved equal to them. `Logged`, the at-most-once property, is proved about
  the functions by mutual induction (`CallLogged` and its companions).
- **The router tree.** It is kept valid by `Router.Valid()` over a ghost
  footprint `Repr`.
- **Endpoint resolvers.** The endpoints' injection resolvers are tracked in
  a ghost set `Injects`, and no two endpoints share one.
- **Handler calls.** `runHandlers` returns, as ghost values, the outcome,
  the arguments and the bookkeeping of every call it made. `Chained` ties
  them to `CallOutcome` in the scope of the endpoint's invoker with the
  context `callback` or `permissionCallback` built, so each call is the
  `Invoker::call` the source makes.

### Host calls

WordPress and the libraries around the core are replaced as follows:

- **Filters:** `apply_filters` is the identity, except
  `fastendpoints_endpoint_args`, which is the `Host.argsFilter` parameter.
  Like the filter, it receives the arguments, the namespace, the rest base
  and the endpoint.
- **Translation:** `esc_html__` and `__` are the identity.
- **Capability check:** `current_user_can` is the `Host.can` parameter.
- **Validator:** the validation library is the `Validate` function
  parameter.
- **Global functions:** the functions `is_callable` accepts by name are the
  `functions` map.
- **Hooks:** `wp_die` is a returned outcome (`Some(message)` or
  `Err(Fatal(...))`). `add_action`/`has_action` is the router's `hooked`
  flag. `register_rest_route` is the returned `Registration`.
- **Reflection:** reflection and attributes are the `ParamDescriptor`
  datatype. A callable is a `Handler`, whose body maps positional arguments
  to a result or a thrown object.

### Where the model follows the code as written

- **Source order in `getFromParams`.** The code merges with
  `array_merge($fromParams, $allParams)`, so for a key several `From`
  sources hold, the source declared first wins. The documentation says the
  later one does. See `LazyLoad.EarliestSourceWins`.
- **Capability placeholders.** The `hasCap` comment shows `{post_id}`, but
  `replaceSpecialValue` recognises only `<post_id>`. The model uses the
  angle brackets.
- **Exception handlers.** The documentation describes dispatch to the
  nearest ancestor's handler. The code has no such dispatch: `Endpoint`
  has no `onException` method, so `registerEndpoints` fails with a PHP
  `Error` for a router that has any exception handler and any endpoint
  (`Routers.NoEndpointOnException`).
- **Type hints in the static stage.** `StaticParameterResolver` tests
  `$typeName instanceof WP_REST_Request` on a string, which never holds, so
  only the effective name fills a parameter.

## Model

| member | source | states |
|---|---|---|
| PhpStrings.Trim | src/Router.php:341-344 | the result is a contiguous slice of the input, everything before and after it being in the stripped character set, with neither of its ends in that set |
| PhpStrings.TrimIdempotent | src/Endpoint.php:350 | trimming an already trimmed string changes nothing |
| PhpStrings.TrimPadded | src/Endpoint.php:350 | trimming padding + core + padding gives exactly the core when the core's ends are not stripped |
| PhpStrings.Split | src/DI/LazyLoadParameters.php:168 | `explode` yields at least one piece and no piece holds the delimiter |
| PhpStrings.JoinSplit | src/DI/LazyLoadParameters.php:168 | joining the pieces of a split on the same character gives the string back |
| PhpStrings.SplitJoin | src/DI/LazyLoadParameters.php:168 | splitting a join of delimiter-free pieces gives the pieces back |
| PhpStrings.NatToString | src/DI/LazyLoadParameters.php:166 | the decimal form is non-empty, all digits, with no leading zero except for 0 |
| PhpStrings.ParseNatToString | src/DI/LazyLoadParameters.php:166 | the decimal form of a natural number reads back as that number |
| PluginDepends.AppendPlugins | src/PluginDependsTrait.php:21-30 | the new list is the old one (null read as empty) followed by the named plugins, a single name becoming a one-element list |
| PluginDepends.DependsTwice | src/PluginDependsTrait.php:21-30 | two `depends` calls equal one call with both lists, in order |
| PluginDepends.DuplicatesKept | src/PluginDependsTrait.php:27 | naming a plugin twice keeps both copies |
| PluginDepends.PluginDependent.Depends | src/PluginDependsTrait.php:21-30 | the plugins become the appended list and the object itself is returned |
| WpErrors.GetData | src/Helpers/WpError.php:29-36 | data holds `status` (the caller's value if given, else the code), `all_messages` for an array message, and every other caller key unchanged |
| WpErrors.FirstLeaf | src/Helpers/WpError.php:51-53 | descending first elements never stops at an array |
| WpErrors.FirstErrorMessage | src/Helpers/WpError.php:41-60 | a string is its own message, an empty array gives the default, a non-empty array the message of its first leaf |
| WpErrors.NewWpError | src/Helpers/WpError.php:22-27 | construction succeeds exactly when the first message is a string (or `false`), with the code, that message and the merged data |
| WpErrors.MakeError | src/Helpers/WpError.php:22-27 | a string-message error always succeeds, with `status` set to the code unless given |
| WpErrors.NestedMessage | src/Helpers/WpError.php:51-59 | however deeply a message is nested in first elements it is the one reported, whatever follows it |
| WpErrors.EmptyFirstEntryGivesDefault | src/Helpers/WpError.php:55-57 | an array whose first element is a nest of empty arrays gives the default message |
| StaticResolver.AliasGenerator | src/DI/StaticParameterResolver.php:99-109 | the callable's alias generator if it has one, else the identity |
| StaticResolver.GetParameters | src/DI/StaticParameterResolver.php:31-81 | the slots are `Slots`: resolved slots are kept; exactly the unresolved parameters whose effective name is `request`, `response` or `endpoint` are filled, each with the provided value of that name |
| StaticResolver.Slots | src/DI/StaticParameterResolver.php:44-51 | a slot exactly for each resolved index and each parameter whose effective name is `request`, `response` or `endpoint` |
| ValidationResolver.ConvertToNumericArgs | src/DI/ValidationParameterResolver.php:61-69 | one argument per parameter in order, the validated value when set and the default otherwise; a `ReflectionException` exactly when some parameter has neither |
| ValidationResolver.GetParameters | src/DI/ValidationParameterResolver.php:49-59 | the result is `Validated`: a validation failure passes through unchanged; otherwise the result is the conversion of the validated values, the view being seeded with the resolved slots |
| ValidationResolver.Validated | src/DI/ValidationParameterResolver.php:49-69 | a validation failure passes through; otherwise the result is the conversion of the validated values to one argument per parameter |
| ValidationResolver.NumericArgsUnique | src/DI/ValidationParameterResolver.php:61-69 | the conversion has exactly one outcome for given validated values and parameters |
| ValidationResolver.MissingWithoutDefaultThrows | src/DI/ValidationParameterResolver.php:65 | a parameter missing from the validated values without a default makes the conversion throw |
| LazyLoad.Seed | src/DI/LazyLoadParameters.php:37-42 | the view starts holding exactly the resolved slots, under their indexes |
| LazyLoad.FromParams | src/DI/LazyLoadParameters.php:176-190 | null exactly when the parameter has no `From` attribute |
| LazyLoad.LazyLoadParameters.constructor | src/DI/LazyLoadParameters.php:37-42 | no index tracked, storage seeded with the resolved slots |
| LazyLoad.LazyLoadParameters.OffsetExists | src/DI/LazyLoadParameters.php:44-53 | an index is tracked and answered from storage without change; a name is looked up as `find` specifies |
| LazyLoad.LazyLoadParameters.OffsetGet | src/DI/LazyLoadParameters.php:55-66 | an index is tracked and read; a name is looked up, then read (null when still missing), and a throwing lookup is passed on |
| LazyLoad.LazyLoadParameters.Find | src/DI/LazyLoadParameters.php:75-107 | answer and new storage are those of `FindSpec`; when it throws, storage is unchanged |
| LazyLoad.LazyLoadParameters.FindParamByKey | src/DI/LazyLoadParameters.php:117-128 | found exactly when the key is in the source maps (else URL/query), storing the parsed value |
| LazyLoad.LazyLoadParameters.FindParam | src/DI/LazyLoadParameters.php:137-143 | stores the whole source map (else JSON/form body) under the key and reports success |
| LazyLoad.LazyLoadParameters.GetFromParams | src/DI/LazyLoadParameters.php:176-190 | the result is the merge of the declared sources' maps |
| LazyLoad.UnionOutcome | src/DI/LazyLoadParameters.php:94-106 | a union search ends with the first builtin member's parsed value when the key is present, else the whole map if some member is a class, else nothing new |
| LazyLoad.FindTouchesOnlyKey | src/DI/LazyLoadParameters.php:75-107 | a lookup changes storage only under the key looked for, and answers true exactly when that key is then stored |
| LazyLoad.FoundIsCached | src/DI/LazyLoadParameters.php:77-79 | once a key is found, every later lookup of it is answered from storage |
| LazyLoad.UrlBeforeQuery | src/DI/LazyLoadParameters.php:197-209 | without sources, URL captures win over the query; a key in neither is not found and nothing is stored |
| LazyLoad.ClassTypedTakesWholeMap | src/DI/LazyLoadParameters.php:89-92 | a class-typed parameter is always found, storing the merged sources or else the JSON/form body |
| LazyLoad.UntrackedIndexThrows | src/DI/LazyLoadParameters.php:81-83 | a key not stored, read with no valid tracked index, makes the lookup throw |
| LazyLoad.MergedKeys | src/DI/LazyLoadParameters.php:176-190 | a key is in the merged map exactly when some declared source holds it |
| LazyLoad.EarliestSourceWins | src/DI/LazyLoadParameters.php:183-186 | for a key several sources hold, the merged value is the first declared source's |
| LazyLoad.SplitsCommaList | src/DI/LazyLoadParameters.php:151-169 | a comma-joined scalar for an `array`/`object` parameter is split back into its elements |
| LazyLoad.SplitExample | src/DI/LazyLoadParameters.php:151-169 | `'10,20,30'` for an `array` parameter becomes `['10', '20', '30']` |
| Injection.InjectName | src/DI/InjectParameterResolver.php:72 | the `Inject` attribute's name unless it is null, "" or "0", then the parameter's name |
| Injection.InjectParameterResolver.constructor | src/DI/InjectParameterResolver.php:41-47 | registry holds exactly the validator and the serializer; nothing memoised, empty call stack |
| Injection.InjectParameterResolver.SetInjectables | src/DI/InjectParameterResolver.php:110-113 | incoming entries override registered ones of the same name; nothing else changes |
| Injection.InjectParameterResolver.Resolve | src/DI/InjectParameterResolver.php:71-104 | outcome and new bookkeeping are `ResolveOutcome`'s: memo hit; unknown name fails; non-callable memoised as is; name on the call stack fails as a loop; else the callable is called and memoised on success. A value that was not memoised before is what the registry produced: the entry's own value, or the callable's result on the arguments recorded for it. The bookkeeping goes as `Logged` says |
| Injection.InjectParameterResolver.CallInjectable | src/DI/InjectParameterResolver.php:98-104 | outcome and new bookkeeping are `Invocation`'s: the name is logged and pushed, the callable is called through `call`; on success the name is popped and the result memoised, and the memoised value is the callable's body applied to the arguments recorded for it |
| Injection.InjectParameterResolver.GetParameters | src/DI/InjectParameterResolver.php:52-108 | outcome and new bookkeeping are `FillOutcome`'s; resolved slots kept; exactly the unresolved `Inject` parameters filled; each filled non-null slot is the value memoised before the call, or what the registry produced for its name (a literal's value, or the callable's result on its recorded arguments); `Logged` holds, so on success each callable it set off ran once unless it returned null |
| Injection.OnceJoin | src/DI/InjectParameterResolver.php:73-77 | two successive runs that each called every callable once, the second calling none memoised by the first, together call each callable once |
| Injection.SharedInjectablesRunOnce | tests/Unit/DITest.php:62-98 | on a fresh invoker with `getFirstName`, `getLastName` and `user` registered, the handler returns "Andre Andre Gil" on the arguments ("Andre Gil", "Andre"); `user`, `getFirstName` and `getLastName` are each invoked exactly once, in that order; all three are memoised and the call stack is empty |
| Injection.Invoker.constructor | src/DI/Invoker.php:35-46 | a fresh injection resolver with the built-in registry |
| Injection.Invoker.Call | src/DI/Invoker.php:41-45 | outcome, arguments received and new bookkeeping are `CallOutcome`'s: the outcome is the body applied to the arguments received, or a failure before the call; `Logged` holds |
| Injection.CallOutcome | src/DI/Invoker.php:41-45 | success leaves the call stack as it was and failure only grows it; the log only grows; when the callable is called it receives one argument per parameter and the outcome is its body's on them; otherwise the call failed |
| Injection.FillOutcome | src/DI/InjectParameterResolver.php:65-105 | success leaves the call stack as it was and failure only grows it; the log only grows |
| Injection.ResolveOutcome | src/DI/InjectParameterResolver.php:71-104 | as `FillOutcome`, and on success the value is memoised under the injectable's name |
| Injection.Invocation | src/DI/InjectParameterResolver.php:98-104 | the name is the next log entry; on success the call stack is as before, the value is memoised and is the callable's body applied to the arguments recorded for the name |
| Injection.CallLogged | src/DI/Invoker.php:41-45 | the bookkeeping of any call goes as `Logged` says: memo kept, no memoised callable re-called, each new memo entry produced by the registry, null results recorded with their arguments, nothing on the call stack called, and on success each callable called once unless it returned null |
| Injection.FillLogged | src/DI/InjectParameterResolver.php:65-105 | so does `getParameters` from any point of its loop |
| Injection.ResolveLogged | src/DI/InjectParameterResolver.php:71-104 | so does the resolution of one parameter |
| Injection.InvocationLogged | src/DI/InjectParameterResolver.php:98-104 | so does the call of one injectable, and the name is the next log entry |
| Injection.CallRecorded | src/DI/InjectParameterResolver.php:100-103 | pushing, calling and then popping and memoising keeps the bookkeeping logged from before the push |
| Injection.FillFilled | src/DI/InjectParameterResolver.php:65-105 | on success the loop keeps the resolved slots and fills exactly the unresolved `Inject` parameters, each non-null value being the memoised one |
| Injection.StaticCall | src/DI/StaticParameterResolver.php:44-51 | a callable whose parameters are all `request`, `response` or `endpoint` is called on the provided values, and nothing is injected or called on the way |
| Injection.SharedInjectablesOutcome | tests/Unit/DITest.php:62-98 | the scenario's call returns "Andre Andre Gil" with the arguments ("Andre Gil", "Andre"), logs `user`, `getFirstName`, `getLastName` once each, memoises the three values and ends with an empty call stack and no null result |
| Injection.UserOutcome | tests/Unit/DITest.php:80-84 | `user` injects `getFirstName` and `getLastName`, each called once in that order, and returns "Andre Gil" |
| Injection.TwoFresh | src/DI/InjectParameterResolver.php:65-105 | two parameters injecting two distinct parameterless callables, neither memoised nor on the call stack: each is called once in order and memoised, and the callable is called on their results |
| Injection.CalledThenMemoised | src/DI/InjectParameterResolver.php:73-77 | a second parameter naming what the first one's call memoised is served from the memo, not called again |
| Endpoints.ArrayMerge | src/Endpoint.php:152 | every key of both arrays, the endpoint's own arguments winning |
| Endpoints.JoinRoute | src/Endpoint.php:328-337 | base then route, with a `/` inserted exactly when neither side supplies one |
| Endpoints.JoinRouteOneSlash | src/Endpoint.php:328-337 | when at most one side supplies a slash, the result is base and route around exactly one slash |
| Endpoints.Placeholder | src/Endpoint.php:350-355 | a text is a placeholder exactly when it starts with `<` and ends with `>`, the key being what lies between |
| Endpoints.ReplaceSpecialValue | src/Endpoint.php:346-361 | a trimmed `<name>` naming a request parameter becomes its value; anything else is kept untrimmed |
| Endpoints.PaddedPlaceholder | src/Endpoint.php:346-361 | white space around a placeholder does not stop the replacement |
| Endpoints.UnknownPlaceholderKept | src/Endpoint.php:355-358 | a placeholder naming no request parameter is kept verbatim |
| Endpoints.Denied | src/Endpoint.php:193-195 | a 403 "Not enough permissions" error with its status in the data |
| Endpoints.CapHandlerDecides | src/Endpoint.php:184-198 | the capability handler takes only the request; it grants exactly when the user has the capability for the replaced arguments, else 403 |
| Endpoints.Settle | src/Endpoint.php:378-386 | a validation exception becomes a 422 error with the errors, another exception a 500 error, a PHP `Error` is not caught |
| Endpoints.RunSpec | src/Endpoint.php:374-394 | without a result asked for, a non-halting answer is null; a halting answer is some call's settled outcome |
| Endpoints.RunSpecPrefix | src/Endpoint.php:376-391 | calls that do not halt only pass their value on |
| Endpoints.RunNothing | src/Endpoint.php:393 | no handlers give null |
| Endpoints.FirstHaltWins | src/Endpoint.php:388-390 | the first halting outcome is the answer, whatever follows |
| Endpoints.NoHaltResult | src/Endpoint.php:393 | without a halt, the answer is the last value when asked for, else null |
| Endpoints.Lifecycle | src/Endpoint.php:272-299 | the answer is always an error or a response; a halting on-request phase is the answer; no halt gives the response |
| Endpoints.Endpoint.constructor | src/Endpoint.php:121-129 | full route is the route, no plugins, no handlers, no invoker |
| Endpoints.Endpoint.RouteArgsShape | src/Endpoint.php:144-152 | the four default keys and the endpoint's own, its own winning; `__return_true` exactly without permission handlers; null dependencies exactly without plugins |
| Endpoints.Endpoint.Register | src/Endpoint.php:142-164 | registers exactly when the filtered arguments are non-empty, then with the joined route and full route `/namespace/route`; otherwise nothing changes |
| Endpoints.Endpoint.GetInvoker | src/Endpoint.php:399-406 | the existing invoker, or a fresh one with the built-in registry |
| Endpoints.LastHalts | src/Endpoint.php:388-390 | when only the last call halts, the answer is its settled outcome |
| Endpoints.RanOneMore | src/Endpoint.php:377-379 | recording one more call, its outcome being its handler's body on the arguments it received, extends the run |
| Endpoints.ChainedOneMore | src/Endpoint.php:377-379 | a call of the next handler, made in the same scope from the bookkeeping the last call left, extends the chain of `Invoker::call`s |
| Endpoints.ContextArgs | src/Endpoint.php:274-278 | one argument per parameter: the request for `request`, the endpoint for `endpoint`, the response (when there is one) for `response` |
| Endpoints.ContextCall | src/DI/StaticParameterResolver.php:44-51 | a handler whose parameters all name `request`, `response` or `endpoint` is called on exactly the context's objects, its outcome is its body's on them, and the bookkeeping is unchanged |
| Endpoints.ContextRun | src/Endpoint.php:377-379 | in a chain of calls with one context, every handler that takes only the context's objects receives exactly those, and its outcome is its body's on them |
| Endpoints.Endpoint.HandlerContext | src/Endpoint.php:274-278 | the named values are this endpoint, the request and the response given, if any |
| Endpoints.Endpoint.CallHandler | src/Endpoint.php:379 | the call is `Invoker::call` of the handler with the context given, in the invoker's scope (a new invoker's: the built-in registry, the global functions, the validator), from the bookkeeping as it stood: outcome, arguments received and new bookkeeping are `CallOutcome`'s; the outcome is the handler's body on the arguments it received, or a failure before the call |
| Endpoints.Endpoint.RunHandlers | src/Endpoint.php:374-394 | the answer is `RunSpec` of the calls made, one per handler in order, stopping exactly after the first halting one; the calls are `Invoker::call`s with the context given, each from the bookkeeping the one before left (`Chained`) |
| Endpoints.Endpoint.CallNext | src/Endpoint.php:377-379 | one pass of the loop: the next handler's call, with the context given, is appended to the run and to the chain |
| Endpoints.Endpoint.Callback | src/Endpoint.php:272-299 | the answer is `Lifecycle` of the three phases; each phase that runs is a complete run of its handlers (on-request, then the main handler exactly once, then on-response), stopping only after a halting call; later phases do not run after a halt; the main value becomes the response data. Every call of the three phases is `Invoker::call` with this endpoint, its full route, the request and the one fresh response, the phases chained through the bookkeeping; a main handler taking only `request`, `response` and `endpoint` receives exactly those objects |
| Endpoints.Endpoint.Serve | src/Endpoint.php:279-298 | the three phases of `callback` for a given context, with the same answer, runs and chain of calls |
| Endpoints.Endpoint.Respond | src/Endpoint.php:285-298 | after the on-request phase: the main handler runs exactly once; if it halts that is the answer and no on-response handler runs; otherwise its value becomes the response data, the on-response handlers run to their end, and their halt or the response is the answer; both phases are `Invoker::call`s with the context given, chained through the bookkeeping |
| Endpoints.Endpoint.RunMain | src/Endpoint.php:286 | the main handler alone, its result asked for; a handler taking only the context's objects is called on exactly those |
| Endpoints.Endpoint.Deliver | src/Endpoint.php:290-298 | the response data becomes the main value; the on-response handlers run to their end with the context given; their halt is the answer, else the response |
| Endpoints.Endpoint.PermissionCallback | src/Endpoint.php:309-321 | the permission handlers run in order, stopping only after a halting call, as `Invoker::call`s with this endpoint, its full route, the request and no response, chained through the bookkeeping; an error or uncaught throw from them is the answer; anything else grants access (`true`) |
| Endpoints.Endpoint.Permission | src/Endpoint.php:256-261 | appends the handler and returns the endpoint |
| Endpoints.Endpoint.HasCap | src/Endpoint.php:178-199 | an empty or "0" capability stops the request and changes nothing; otherwise the capability handler is appended |
| Endpoints.Endpoint.UseMiddleware | src/Endpoint.php:225-235 | appends each hook the middleware has to its handler list |
| Endpoints.Endpoint.Returns | src/Endpoint.php:212-218 | appends the schema hook to the on-response handlers |
| Endpoints.Endpoint.Depends | src/Endpoint.php:240-249 | the plugins become the appended list |
| Routers.Segment | src/Router.php:341-344 | the base trimmed of slashes, then `/` and the trimmed version exactly when the version is not falsy |
| Routers.Add | src/Router.php:253-262 | a name already taken keeps its handler unless overriding; other names are untouched |
| Routers.Inherit | src/Router.php:226-231 | the sub-router's own entries, plus the parent's under the names it does not have |
| Routers.InheritOneMore | src/Router.php:226-228 | one non-overriding `inject` of a parent entry extends the inherited part by that entry |
| Routers.InheritTwice | src/Router.php:221-235 | inheriting twice equals inheriting the combination, never displacing the sub-router's own entries |
| Routers.Lift | src/Router.php:303 | the router's injectables as callable registry entries, under the same names |
| Routers.Router.constructor | src/Router.php:104-108 | a lone valid tree with nothing attached |
| Routers.Router.NamespaceIsRoot | src/Router.php:335-339 | every router of a tree reports its root's segment |
| Routers.Router.RootNamespace | src/Router.php:335-352 | the namespace is the root's segment |
| Routers.Router.RestBase | src/Router.php:358-370 | empty for a root, the router's own segment otherwise |
| Routers.Router.Inject | src/Router.php:253-262 | the injectables become `Add` of the new entry; the router is returned |
| Routers.Router.OnException | src/Router.php:273-282 | the exception handlers become `Add` of the new entry; the router is returned |
| Routers.Router.Depends | src/Router.php:398-407 | the plugins become the appended list |
| Routers.Router.InheritInjectables | src/Router.php:226-228 | the injectables become `Inherit` of the parent's |
| Routers.Router.InheritExceptionHandlers | src/Router.php:230-232 | the exception handlers become `Inherit` of the parent's |
| Routers.Router.Stopped | src/Router.php:200-212 | stops for a sub-router with an unhooked parent, a root without base, a root without version, each with its message; nothing else stops |
| Routers.Router.Register | src/Router.php:194-240 | a stopped router changes nothing; otherwise every router of the tree is hooked, and every router below this one holds the copy-down, from its own parent, of the plugins, injectables and exception handlers it held before |
| Routers.Router.RegisterSubRouter | src/Router.php:221-235 | one loop step keeps the loop invariant one sub-router further |
| Routers.Router.RegisterChild | src/Router.php:222-234 | the sub-router's whole tree ends hooked; the sub-router holds this router's copy-down, and every router below it holds its own parent's copy-down of what it held before |
| Routers.Router.TreeCopied | src/Router.php:221-235 | once every sub-router is registered, every router below this one holds its parent's copy-down of what it held at the start |
| Routers.Router.CopyDownTo | src/Router.php:222-232 | the sub-router's plugins, injectables and exception handlers become the inherited ones |
| Routers.Router.RootedHooked | src/Router.php:218-235 | this router hooked and every sub-tree hooked means the whole tree is hooked |
| Routers.Router.RegisterEndpoints | src/Router.php:289-306 | fails with an undefined-method `Error` exactly when the router has exception handlers and endpoints; otherwise every endpoint is `Prepared` at the root's namespace and this REST base, and the router is marked registered |
| Routers.Router.RegisterEndpointsAt | src/Router.php:293-305 | as `RegisterEndpoints`, for a given namespace and REST base |
| Routers.Router.RegisterAll | src/Router.php:293-305 | the loop prepares every endpoint from what it held before, in turn, then marks the router registered |
| Routers.Router.RegisterNext | src/Router.php:293-304 | one loop step keeps the loop invariant one endpoint further |
| Routers.Router.RegisterEndpointAt | src/Router.php:294-303 | the endpoint gets the plugins; a router with exception handlers fails; otherwise the endpoint is `Prepared` and the other endpoints are unchanged |
| Routers.Router.DependsAt | src/Router.php:294-296 | only the endpoint's plugins change, to the appended list |
| Routers.Router.RegisterAt | src/Router.php:302 | the registration is the one the endpoint's filtered arguments call for; only its full route changes |
| Routers.Router.HandInjectables | src/Router.php:303 | the endpoint's invoker (kept if present) gets the router's injectables over its registry; other endpoints unchanged |
| Routers.Router.Endpoint | src/Router.php:382-393 | a fresh endpoint with the given method, route, handler and arguments is appended |
| Routers.Router.Get | src/Router.php:119-122 | appends a fresh `GET` endpoint holding the given route, handler, arguments and override flag |
| Routers.Router.Post | src/Router.php:133-136 | appends a fresh `POST` endpoint holding the given route, handler, arguments and override flag |
| Routers.Router.Put | src/Router.php:147-150 | appends a fresh `PUT` endpoint holding the given route, handler, arguments and override flag |
| Routers.Router.Delete | src/Router.php:161-164 | appends a fresh `DELETE` endpoint holding the given route, handler, arguments and override flag |
| Routers.Router.Patch | src/Router.php:175-178 | appends a fresh `PATCH` endpoint holding the given route, handler, arguments and override flag |
| Routers.Router.IncludeRouter | src/Router.php:185-189 | the router is appended as a sub-router, its parent set, and the tree stays valid |

## Left out

- `fastendpoints_is_to_register` and the other filters are the identity, except the endpoint-arguments filter. The `do_action` hooks (`fastendpoints_before_register`, `fastendpoints_after_register`) have no effect on the modelled state and are left out.
- `fastendpoints_request_error` is the identity, so a settled error is the `WpError` built in `runHandlers`.
- `getEndpoints`, `getSubRouters` and `getFullRoute` are plain accessors of modelled fields, so they have no members of their own.
- Routers.Router.IncludeRouter: requires this router to be a root and the included tree to share no router with it. PHP would accept any router, including one already in the tree, which could create a cycle; the model keeps the tree acyclic instead. The root requirement is stronger than acyclicity needs: it means a tree is built bottom up, each sub-router's own sub-routers included before it is included in its parent. A tree built top down, such as the nested routers of tests/Unit/RouterTest.php:114-120, is outside the model.
- Routers.Router.RegisterEndpoints: takes the root of the tree as a ghost parameter and requires the endpoints to have distinct injection resolvers. Both hold for trees built through `includeRouter` and `endpoint`.
- `WpError`: a message array with string keys is not modelled, because PHP's key order is not. `FirstErrorMessage` fails on it.
- Floats: there is no float value, so JSON or query numbers with a fraction, and the `(string)` cast of a float in `ScalarString`, are not modelled.
- The `LazyLoadParameters` view is modelled on its own: the `Validate` parameter receives the request and the seeded storage directly, so the view's lookups are proved about but do not feed the outcome of a modelled call.
- Injection.InjectParameterResolver.Resolve: an injectable that returns null is not memoised and is called again next time, as `isset` dictates. When its call throws, its name stays on the call stack, as in the code.
- Injection.InjectParameterResolver.CallInjectable: the injectable is called with the endpoint's provided values only. The source also merges in the outer call's resolved slots, which PHP renumbers as positional arguments; that renumbering is not modelled.
- Injection.Invoker.Call: its outcome is stated through `CallOutcome`; the case where every parameter is filled by the static stage is stated separately by `StaticCall`.
- `is_callable` accepts a registered callable entry or a string naming a global function (the `functions` map). Invokable objects and `Class::method` strings are not modelled.
- The resolver chain stops as soon as every parameter has a slot. The `NotEnoughParametersException` check of the underlying invoker library is left out: the validation stage always yields one argument per parameter or throws.
- LazyLoad keys: a numeric string key is modelled as an index (`Key.Index`). PHP's `is_numeric` on fractional or exponent strings is not modelled.
- Handler bodies are pure functions of their arguments. A handler cannot read or mutate the response object it receives: an on-response handler does not see the data `callback` stored with `set_data`, and a handler that mutates the response is not modelled; only `callback`'s own `set_data` is.
- A permission handler that returns a `WP_REST_Response` grants access, as the code's `is_wp_error` test does.
- Intersection types and nullable types on handler parameters are not modelled: a parameter is untyped, has one named type, or has a union of named types.
- `ResponseMiddleware` (the `returns` schema), the `Options` attribute classes, exception-handler dispatch, and the validator and serializer libraries are not part of this model. `returns` takes the schema's on-response hook as a given handler.
- Reflection exceptions other than a missing default value, and `Error`s inside the validator, are carried as opaque thrown objects.
- Integers are unbounded. No PHP integer overflow is modelled.
