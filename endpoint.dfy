/**
 * A REST endpoint: its registration with WordPress, the permission check
 * and the request lifecycle (on-request handlers, the main handler, the
 * on-response handlers), each handler called through the endpoint's own
 * dependency-injection invoker.
 */
module Endpoints {
  import opened Values
  import PhpStrings
  import WpErrors
  import PluginDepends
  import Injection
  import ValidationResolver
  import StaticResolver

  /**
   * What the hosting WordPress site supplies: the validation library, the
   * global functions, `current_user_can`, and the
   * `fastendpoints_endpoint_args` filter, which receives the arguments, the
   * namespace, the rest base and the endpoint.
   */
  datatype Host = Host(
    validate: ValidationResolver.Validate,
    functions: map<string, Handler>,
    can: (string, seq<Value>) -> bool,
    argsFilter: (Params, string, string, Value) -> Params)

  /** One call of `register_rest_route`. */
  datatype Registration = Registration(namespace: string, route: string, args: Params, override: bool)

  /** A middleware object, by the hook methods it has. */
  datatype Middleware = Middleware(onRequest: Option<Handler>, onResponse: Option<Handler>)

  const Forbidden: int := 403
  const NotEnoughPermissions: string := "Not enough permissions"
  const InvalidCapability: string := "Invalid capability. Empty capability given"
  const UnprocessableEntity: int := 422
  const InternalServerError: int := 500

  /** `array_merge` on string-keyed arrays: every key of both, the later array winning. */
  function ArrayMerge(a: Params, b: Params): (r: Params)
    ensures r.Keys == a.Keys + b.Keys
    ensures forall k :: k in b ==> r[k] == b[k]
    ensures forall k :: k in a && k !in b ==> r[k] == a[k]
  {
    a + b
  }

  /**
   * `getRoute`: the REST base and the route, with a `/` between them
   * exactly when neither already supplies one at the junction.
   */
  function JoinRoute(restBase: string, route: string): (r: string)
    ensures restBase <= r && PhpStrings.EndsWith(r, route)
    ensures !PhpStrings.EndsWith(restBase, "/") && !PhpStrings.StartsWith(route, "/") <==> |r| == |restBase| + |route| + 1
    ensures |r| == |restBase| + |route| + 1 ==> r[|restBase|] == '/'
    ensures |r| == |restBase| + |route| || |r| == |restBase| + |route| + 1
  {
    var sep := if !PhpStrings.EndsWith(restBase, "/") && !PhpStrings.StartsWith(route, "/") then "/" else "";
    var r := restBase + sep + route;
    assert r[|r| - |route|..] == route;
    r
  }

  /** Whichever of the two sides supplies the slash, the junction holds exactly one slash when only one side does. */
  lemma JoinRouteOneSlash(restBase: string, route: string)
    requires !(PhpStrings.EndsWith(restBase, "/") && PhpStrings.StartsWith(route, "/"))
    ensures var r := JoinRoute(restBase, route);
            exists j :: 0 <= j < |r| && r[j] == '/' && r[..j] == (if PhpStrings.EndsWith(restBase, "/") then restBase[..|restBase| - 1] else restBase)
                                     && r[j + 1..] == (if PhpStrings.StartsWith(route, "/") then route[1..] else route)
  {
    var r := JoinRoute(restBase, route);
    if PhpStrings.EndsWith(restBase, "/") {
      var j := |restBase| - 1;
      assert r == restBase + route;
      assert r[..j] == restBase[..j] && r[j] == '/' && r[j + 1..] == route;
    } else if PhpStrings.StartsWith(route, "/") {
      var j := |restBase|;
      assert r == restBase + route;
      assert r[..j] == restBase && r[j] == '/' && r[j + 1..] == route[1..];
    } else {
      var j := |restBase|;
      assert r == restBase + "/" + route;
      assert r[..j] == restBase && r[j] == '/' && r[j + 1..] == route;
    }
  }

  /** The key of a `<name>` placeholder, if the (trimmed) text is one. */
  function Placeholder(t: string): (key: Option<string>)
    ensures key.Some? <==> |t| >= 2 && t[0] == '<' && t[|t| - 1] == '>'
    ensures key.Some? ==> t == "<" + key.value + ">"
  {
    if PhpStrings.StartsWith(t, "<") && PhpStrings.EndsWith(t, ">") && |t| >= 2 then Some(t[1..|t| - 1]) else None
  }

  /**
   * `replaceSpecialValue`: a value that, once trimmed, reads `<name>` with
   * `name` a request parameter becomes that parameter's value; any other
   * value is kept as it was, untrimmed.
   */
  function ReplaceSpecialValue(req: Request, value: string): (r: Value)
    ensures var key := Placeholder(PhpStrings.Trim(value, PhpStrings.WhiteSpace));
            key.Some? && key.value in req.params ==> r == req.params[key.value]
    ensures var key := Placeholder(PhpStrings.Trim(value, PhpStrings.WhiteSpace));
            !(key.Some? && key.value in req.params) ==> r == VStr(value)
  {
    var key := Placeholder(PhpStrings.Trim(value, PhpStrings.WhiteSpace));
    if key.Some? && key.value in req.params then req.params[key.value] else VStr(value)
  }

  /** A placeholder padded with white space is replaced by the request parameter it names. */
  lemma PaddedPlaceholder(req: Request, lead: string, name: string, trail: string)
    requires forall k :: 0 <= k < |lead| ==> lead[k] in PhpStrings.WhiteSpace
    requires forall k :: 0 <= k < |trail| ==> trail[k] in PhpStrings.WhiteSpace
    requires name in req.params
    ensures ReplaceSpecialValue(req, lead + ("<" + name + ">") + trail) == req.params[name]
  {
    var core := "<" + name + ">";
    CoreIsPlaceholder(name);
    PhpStrings.TrimPadded(lead, core, trail, PhpStrings.WhiteSpace);
  }

  /** `<name>` is a placeholder for `name`, and trimming white space leaves it whole. */
  lemma CoreIsPlaceholder(name: string)
    ensures var core := "<" + name + ">";
            |core| > 0 && core[0] !in PhpStrings.WhiteSpace && core[|core| - 1] !in PhpStrings.WhiteSpace &&
            Placeholder(core) == Some(name)
  {
    var core := "<" + name + ">";
    assert core[0] == '<' && core[|core| - 1] == '>';
    assert core[1..|core| - 1] == name;
  }

  /** A placeholder naming no request parameter is kept verbatim. */
  lemma UnknownPlaceholderKept(req: Request, name: string)
    requires name !in req.params
    ensures ReplaceSpecialValue(req, "<" + name + ">") == VStr("<" + name + ">")
  {
    var core := "<" + name + ">";
    CoreIsPlaceholder(name);
    PhpStrings.TrimPadded("", core, "", PhpStrings.WhiteSpace);
    assert "" + core + "" == core;
  }

  /** The capability arguments with every string replaced as a special value. */
  function CapArgs(req: Request, args: seq<Value>): seq<Value>
  {
    seq(|args|, i requires 0 <= i < |args| => if args[i].VStr? then ReplaceSpecialValue(req, args[i].s) else args[i])
  }

  /** The error a failed capability check returns. */
  function Denied(): (e: WpError)
    ensures e.code == Forbidden && e.message == NotEnoughPermissions && e.data == map["status" := VInt(Forbidden)]
  {
    WpErrors.MakeError(Forbidden, NotEnoughPermissions, map[])
  }

  /** The permission handler `hasCap` adds: one parameter `$request` typed `WP_REST_Request`. */
  function CapHandler(capability: string, args: seq<Value>, can: (string, seq<Value>) -> bool): Handler
  {
    Handler(
      [ParamDescriptor("request", Named(NamedType("WP_REST_Request", false)), [], None, None, None)],
      None,
      (a: seq<Value>) =>
        if |a| == 1 && a[0].VRequest? then
          if can(capability, CapArgs(a[0].req, args)) then Ok(VBool(true)) else Ok(VError(Denied()))
        else Err(Fatal("Argument #1 ($request) must be of type WP_REST_Request")))
  }

  /**
   * The capability handler takes only the request, which the static stage
   * supplies; given it, it grants exactly when the user has the capability
   * for the arguments after replacement, and is denied with a 403 otherwise.
   */
  lemma CapHandlerDecides(capability: string, args: seq<Value>, can: (string, seq<Value>) -> bool, ctx: Context)
    ensures var h := CapHandler(capability, args, can);
            |h.params| == 1 && StaticResolver.IsWellKnown(StaticResolver.EffectiveName(h, 0)) &&
            Provided(ctx, StaticResolver.EffectiveName(h, 0)) == VRequest(ctx.request)
    ensures var r := CapHandler(capability, args, can).body([VRequest(ctx.request)]);
            (r == Ok(VBool(true)) <==> can(capability, CapArgs(ctx.request, args))) &&
            (r != Ok(VBool(true)) ==> r == Ok(VError(Denied())))
  {
    var h := CapHandler(capability, args, can);
    assert StaticResolver.AliasGenerator(h)("request") == "request";
  }

  /**
   * How `runHandlers` turns one call's outcome into a result: a validation
   * failure becomes a 422 error carrying the validation errors, any other
   * exception a 500 error with its message; a PHP `Error` is not caught.
   */
  function Settle(o: Result<Value>): (r: Result<Value>)
    ensures o.Ok? ==> r == o
    ensures o.Err? && o.error.ValidationException? ==>
              r.Ok? && r.value.VError? && r.value.err.code == UnprocessableEntity &&
              r.value.err.message == o.error.message &&
              r.value.err.data == map["errors" := o.error.errors, "status" := VInt(UnprocessableEntity)]
    ensures o.Err? && IsException(o.error) && !o.error.ValidationException? ==>
              r.Ok? && r.value.VError? && r.value.err.code == InternalServerError &&
              r.value.err.message == o.error.message &&
              r.value.err.data == map["status" := VInt(InternalServerError)]
    ensures o.Err? && !IsException(o.error) ==> r == o
  {
    match o
    case Ok(_) => o
    case Err(e) =>
      if e.ValidationException? then
        var data := map["errors" := e.errors];
        var err := WpErrors.MakeError(UnprocessableEntity, e.message, data);
        assert err.data == map["errors" := e.errors, "status" := VInt(UnprocessableEntity)];
        Ok(VError(err))
      else if IsException(e) then
        var err := WpErrors.MakeError(InternalServerError, e.message, map[]);
        assert err.data == map["status" := VInt(InternalServerError)];
        Ok(VError(err))
      else o
  }

  /** A handler result that ends the handler sequence: an error or a response. */
  predicate Stops(v: Value)
  {
    v.VError? || v.VResponse?
  }

  /** An outcome that ends the handler sequence: a stopping value or an uncaught `Error`. */
  predicate Halts(r: Result<Value>)
  {
    r.Err? || Stops(r.value)
  }

  /** The value the last call settled to, or `last` when there was none. */
  function LastValue(outcomes: seq<Result<Value>>, last: Value): Value
  {
    if |outcomes| == 0 then last
    else var s := Settle(outcomes[|outcomes| - 1]); if s.Ok? then s.value else last
  }

  /**
   * What `runHandlers` returns, given the outcomes of the calls it made:
   * the first halting settled outcome, else the last value when the result
   * is asked for, else null.
   */
  function RunSpec(outcomes: seq<Result<Value>>, returnResult: bool, last: Value): (r: Result<Value>)
    requires !Stops(last)
    ensures r.Ok? && !Stops(r.value) && !returnResult ==> r.value == VNull
    ensures Halts(r) ==> exists k :: 0 <= k < |outcomes| && r == Settle(outcomes[k])
    decreases |outcomes|
  {
    if |outcomes| == 0 then Ok(if returnResult then last else VNull)
    else
      var s := Settle(outcomes[0]);
      if Halts(s) then s
      else
        var r := RunSpec(outcomes[1..], returnResult, s.value);
        assert Halts(r) ==> exists k :: 0 <= k < |outcomes| - 1 && r == Settle(outcomes[1..][k]);
        r
  }

  /** Calls that settle without halting only pass their value on. */
  lemma {:induction false} RunSpecPrefix(pre: seq<Result<Value>>, rest: seq<Result<Value>>, returnResult: bool, last: Value)
    requires !Stops(last)
    requires forall k :: 0 <= k < |pre| ==> !Halts(Settle(pre[k]))
    ensures !Stops(LastValue(pre, last))
    ensures RunSpec(pre + rest, returnResult, last) == RunSpec(rest, returnResult, LastValue(pre, last))
    decreases |pre|
  {
    if |pre| > 0 {
      var s := Settle(pre[0]);
      assert (pre + rest)[0] == pre[0];
      assert (pre + rest)[1..] == pre[1..] + rest;
      RunSpecPrefix(pre[1..], rest, returnResult, s.value);
      if |pre| > 1 {
        assert pre[1..][|pre| - 2] == pre[|pre| - 1];
      }
    } else {
      assert pre + rest == rest;
    }
  }

  /** No handlers: `runHandlers` returns null, whether or not the result is asked for. */
  lemma RunNothing(returnResult: bool)
    ensures RunSpec([], returnResult, VNull) == Ok(VNull)
  {
  }

  /** A halting outcome hides everything after it. */
  lemma {:induction false} FirstHaltWins(pre: seq<Result<Value>>, o: Result<Value>, rest: seq<Result<Value>>, returnResult: bool)
    requires forall k :: 0 <= k < |pre| ==> !Halts(Settle(pre[k]))
    requires Halts(Settle(o))
    ensures RunSpec(pre + [o] + rest, returnResult, VNull) == Settle(o)
  {
    RunSpecPrefix(pre, [o] + rest, returnResult, VNull);
    assert pre + [o] + rest == pre + ([o] + rest);
    assert ([o] + rest)[0] == o;
  }

  /** When only the last outcome halts, it is the result. */
  lemma LastHalts(outcomes: seq<Result<Value>>, returnResult: bool)
    requires |outcomes| > 0 && Halts(Settle(outcomes[|outcomes| - 1]))
    requires forall k :: 0 <= k < |outcomes| - 1 ==> !Halts(Settle(outcomes[k]))
    ensures RunSpec(outcomes, returnResult, VNull) == Settle(outcomes[|outcomes| - 1])
  {
    var n := |outcomes| - 1;
    FirstHaltWins(outcomes[..n], outcomes[n], [], returnResult);
    assert outcomes[..n] + [outcomes[n]] + [] == outcomes;
  }

  /** When no outcome halts, the result is the last call's value, or null when not asked for. */
  lemma NoHaltResult(outcomes: seq<Result<Value>>, returnResult: bool)
    requires forall k :: 0 <= k < |outcomes| ==> !Halts(Settle(outcomes[k]))
    ensures RunSpec(outcomes, returnResult, VNull) == Ok(if returnResult then LastValue(outcomes, VNull) else VNull)
  {
    RunSpecPrefix(outcomes, [], returnResult, VNull);
    assert outcomes + [] == outcomes;
  }

  /** The outcome is what the handler's body returned for the arguments it received, or a failure before the call. */
  predicate FromBody(h: Handler, o: Result<Value>, args: Option<seq<Value>>)
  {
    (args.Some? ==> |args.value| == |h.params| && h.body(args.value) == o) &&
    (args.None? ==> o.Err?)
  }

  /** Each call made so far, one per handler in order, ended as its handler's body (or a failure before it) says. */
  predicate Ran(handlers: seq<Handler>, outcomes: seq<Result<Value>>, received: seq<Option<seq<Value>>>)
  {
    |received| == |outcomes| <= |handlers| &&
    forall k :: 0 <= k < |outcomes| ==> FromBody(handlers[k], outcomes[k], received[k])
  }

  /** Recording the next handler's call keeps the record faithful. */
  lemma RanOneMore(handlers: seq<Handler>, outcomes: seq<Result<Value>>, received: seq<Option<seq<Value>>>,
                   o: Result<Value>, args: Option<seq<Value>>)
    requires Ran(handlers, outcomes, received) && |outcomes| < |handlers|
    requires FromBody(handlers[|outcomes|], o, args)
    ensures Ran(handlers, outcomes + [o], received + [args])
  {
    forall k | 0 <= k < |outcomes| + 1
      ensures FromBody(handlers[k], (outcomes + [o])[k], (received + [args])[k])
    {
      if k < |outcomes| {
        assert (outcomes + [o])[k] == outcomes[k] && (received + [args])[k] == received[k];
      }
    }
  }

  /**
   * A complete run of `runHandlers` over `handlers`: one call per handler in
   * order, stopping early only right after a call that halts, and no call
   * before the last halting.
   */
  predicate RanToEnd(handlers: seq<Handler>, outcomes: seq<Result<Value>>, received: seq<Option<seq<Value>>>)
  {
    Ran(handlers, outcomes, received) &&
    (|outcomes| < |handlers| ==> |outcomes| > 0 && Halts(Settle(outcomes[|outcomes| - 1]))) &&
    forall k :: 0 <= k < |outcomes| - 1 ==> !Halts(Settle(outcomes[k]))
  }

  /**
   * Call `k` of a run was `Invoker::call` of its handler in the scope `s`,
   * from the bookkeeping `trails[k]`, leaving `trails[k + 1]`.
   */
  ghost predicate CallAt(s: Injection.Scope, handlers: seq<Handler>, outcomes: seq<Result<Value>>,
                         received: seq<Option<seq<Value>>>, trails: seq<Injection.Trail>, k: int)
  {
    0 <= k < |outcomes| && |received| == |outcomes| <= |handlers| && |trails| == |outcomes| + 1 &&
    Injection.Called(outcomes[k], received[k], trails[k + 1]) == Injection.CallOutcome(s, handlers[k], trails[k])
  }

  /**
   * The calls made were, one per handler in order, `Invoker::call` of that
   * handler in the scope `s`, each starting from the bookkeeping the call
   * before it left.
   */
  ghost predicate Chained(s: Injection.Scope, handlers: seq<Handler>, outcomes: seq<Result<Value>>,
                          received: seq<Option<seq<Value>>>, trails: seq<Injection.Trail>)
  {
    |trails| == |outcomes| + 1 && |received| == |outcomes| <= |handlers| &&
    forall k :: 0 <= k < |outcomes| ==> CallAt(s, handlers, outcomes, received, trails, k)
  }

  /** Recording the next handler's call, made from the last bookkeeping, extends the chain. */
  lemma ChainedOneMore(s: Injection.Scope, handlers: seq<Handler>, outcomes: seq<Result<Value>>,
                       received: seq<Option<seq<Value>>>, trails: seq<Injection.Trail>,
                       o: Result<Value>, args: Option<seq<Value>>, t: Injection.Trail)
    requires Chained(s, handlers, outcomes, received, trails) && |outcomes| < |handlers|
    requires Injection.Called(o, args, t) == Injection.CallOutcome(s, handlers[|outcomes|], trails[|outcomes|])
    ensures Chained(s, handlers, outcomes + [o], received + [args], trails + [t])
  {
    var outcomes', received', trails' := outcomes + [o], received + [args], trails + [t];
    forall k | 0 <= k < |outcomes|
      ensures CallAt(s, handlers, outcomes', received', trails', k)
    {
      assert CallAt(s, handlers, outcomes, received, trails, k);
      assert outcomes'[k] == outcomes[k] && received'[k] == received[k];
      assert trails'[k] == trails[k] && trails'[k + 1] == trails[k + 1];
    }
    assert outcomes'[|outcomes|] == o && received'[|outcomes|] == args;
    assert trails'[|outcomes|] == trails[|outcomes|] && trails'[|outcomes| + 1] == t;
    assert CallAt(s, handlers, outcomes', received', trails', |outcomes|);
  }

  /** A callable whose parameters all name `request`, `response` or `endpoint`. */
  predicate TakesContext(h: Handler)
  {
    forall i :: 0 <= i < |h.params| ==> StaticResolver.IsWellKnown(StaticResolver.EffectiveName(h, i))
  }

  /** The context's objects, in the order such a callable names them. */
  function ContextArgs(h: Handler, ctx: Context): (r: seq<Value>)
    ensures |r| == |h.params|
    ensures forall i :: 0 <= i < |h.params| && StaticResolver.EffectiveName(h, i) == "request" ==> r[i] == VRequest(ctx.request)
    ensures forall i :: 0 <= i < |h.params| && StaticResolver.EffectiveName(h, i) == "endpoint" ==> r[i] == ctx.endpoint
    ensures ctx.response.Some? ==>
              forall i :: 0 <= i < |h.params| && StaticResolver.EffectiveName(h, i) == "response" ==> r[i] == VResponse(ctx.response.value)
  {
    seq(|h.params|, i requires 0 <= i < |h.params| => Provided(ctx, StaticResolver.EffectiveName(h, i)))
  }

  /**
   * A handler that takes only the context's objects is called on exactly
   * those: the request, the response and the endpoint of the context; its
   * outcome is its body's on them, and the bookkeeping is untouched.
   */
  lemma ContextCall(s: Injection.Scope, h: Handler, t: Injection.Trail)
    requires TakesContext(h)
    ensures Injection.CallOutcome(s, h, t) == Injection.Called(h.body(ContextArgs(h, s.ctx)), Some(ContextArgs(h, s.ctx)), t)
  {
    var o := Injection.CallOutcome(s, h, t);
    Injection.StaticCall(s, h, t);
    assert o.args.value == ContextArgs(h, s.ctx);
  }

  /**
   * Handlers that take only the context's objects are each called on
   * exactly those objects, their outcomes are their bodies' on them, and the
   * bookkeeping is left as it was.
   */
  lemma ContextRun(s: Injection.Scope, handlers: seq<Handler>, outcomes: seq<Result<Value>>,
                   received: seq<Option<seq<Value>>>, trails: seq<Injection.Trail>)
    requires Chained(s, handlers, outcomes, received, trails)
    requires forall k :: 0 <= k < |outcomes| ==> TakesContext(handlers[k])
    ensures forall k :: 0 <= k < |outcomes| ==>
              received[k] == Some(ContextArgs(handlers[k], s.ctx)) &&
              outcomes[k] == handlers[k].body(ContextArgs(handlers[k], s.ctx)) &&
              trails[k + 1] == trails[k]
  {
    forall k | 0 <= k < |outcomes|
      ensures received[k] == Some(ContextArgs(handlers[k], s.ctx)) &&
              outcomes[k] == handlers[k].body(ContextArgs(handlers[k], s.ctx)) &&
              trails[k + 1] == trails[k]
    {
      assert CallAt(s, handlers, outcomes, received, trails, k);
      ContextCall(s, handlers[k], trails[k]);
    }
  }

  /** What `callback` answers, given what its three phases returned. */
  function Lifecycle(pre: Result<Value>, main: Result<Value>, post: Result<Value>, response: Response): (r: Result<Value>)
    ensures r.Ok? ==> r.value.VError? || r.value.VResponse?
    ensures !Halts(pre) && !Halts(main) && !Halts(post) ==> r == Ok(VResponse(response))
    ensures Halts(pre) ==> r == pre
  {
    if Halts(pre) then pre
    else if Halts(main) then main
    else if Halts(post) then post
    else Ok(VResponse(response))
  }

  class Endpoint {
    const httpMethod: string
    const route: string
    const args: Params
    const handler: Handler
    const override: bool
    var fullRoute: string
    var plugins: Option<seq<string>>
    var permissionHandlers: seq<Handler>
    var onRequestHandlers: seq<Handler>
    var onResponseHandlers: seq<Handler>
    var invoker: Injection.Invoker?

    /** The injection resolver of the endpoint's invoker, once there is one. */
    function InjectFrame(): set<object>
      reads this`invoker
    {
      if invoker != null then {invoker.inject} else {}
    }

    ghost predicate Valid()
      reads this`invoker, InjectFrame()
    {
      invoker != null ==> invoker.inject.Valid()
    }

    /** The resolver's bookkeeping; before the invoker exists, the empty bookkeeping a new one starts with. */
    ghost function Bookkeeping(): Injection.Trail
      reads this`invoker, InjectFrame()
    {
      if invoker != null then invoker.inject.State() else Injection.Trail({}, map[], map[], map[], [])
    }

    /**
     * What the invoker resolves with when the handlers are given the context
     * `ctx`: its registry, the global functions and the validator; before
     * the invoker exists, those `host` will create it with.
     */
    ghost function ScopeFor(ctx: Context, host: Host): Injection.Scope
      reads this`invoker, InjectFrame()
    {
      if invoker != null then Injection.Scope(invoker.inject.injectables, invoker.inject.functions, invoker.validate, ctx)
      else Injection.Scope(Injection.Builtins, host.functions, host.validate, ctx)
    }

    /** The named values the endpoint hands its handlers: itself, the request and the response, if any. */
    function HandlerContext(request: Request, response: Option<Response>): (ctx: Context)
      reads this`fullRoute
      ensures ctx.endpoint == VRef(this) && ctx.request == request && ctx.response == response && ctx.fullRoute == fullRoute
    {
      Context(VRef(this), fullRoute, request, response)
    }

    /** The invoker, once created, resolves with the same registry, functions and validator. */
    twostate predicate SameScope(host: Host)
      reads this`invoker, InjectFrame()
    {
      (old(invoker) != null ==> invoker == old(invoker) && invoker.inject.injectables == old(invoker.inject.injectables)) &&
      (old(invoker) == null && invoker != null ==>
         fresh(invoker.inject) && invoker.inject.injectables == Injection.Builtins &&
         invoker.inject.functions == host.functions && invoker.validate == host.validate)
    }

    /** A new endpoint: its full route is its route until it is registered. */
    constructor (httpMethod: string, route: string, handler: Handler, args: Params, override: bool)
      ensures this.httpMethod == httpMethod && this.route == route && this.args == args && this.override == override
      ensures this.handler == handler
      ensures fullRoute == route && plugins == None && invoker == null
      ensures permissionHandlers == [] && onRequestHandlers == [] && onResponseHandlers == []
      ensures Valid()
    {
      this.httpMethod := httpMethod;
      this.route := route;
      this.handler := handler;
      this.args := args;
      this.override := override;
      fullRoute := route;
      plugins := None;
      permissionHandlers := [];
      onRequestHandlers := [];
      onResponseHandlers := [];
      invoker := null;
    }

    /**
     * The default `register_rest_route` arguments, for the endpoint holding
     * `plugins` and `permissionHandlers`.
     */
    function DefaultArgs(plugins: Option<seq<string>>, permissionHandlers: seq<Handler>): Params
    {
      map[
        "methods" := VStr(httpMethod),
        "callback" := VList([VRef(this), VStr("callback")]),
        "permission_callback" :=
          if permissionHandlers != [] then VList([VRef(this), VStr("permissionCallback")]) else VStr("__return_true"),
        "depends" := if plugins.Some? then VList(seq(|plugins.value|, i requires 0 <= i < |plugins.value| => VStr(plugins.value[i]))) else VNull
      ]
    }

    /** The route arguments before the filter: the endpoint's own arguments override the defaults. */
    function RouteArgs(plugins: Option<seq<string>>, permissionHandlers: seq<Handler>): Params
    {
      ArrayMerge(DefaultArgs(plugins, permissionHandlers), args)
    }

    /**
     * The route arguments hold the four default keys and the endpoint's own
     * keys; its own arguments win, and a default that is not overridden
     * gives the HTTP method, this endpoint's `callback`, `__return_true` as
     * the permission callback exactly when there are no permission handlers,
     * and null as the dependencies exactly when there are no plugins.
     */
    lemma RouteArgsShape(plugins: Option<seq<string>>, permissionHandlers: seq<Handler>)
      ensures var a := RouteArgs(plugins, permissionHandlers);
              a.Keys == {"methods", "callback", "permission_callback", "depends"} + args.Keys &&
              (forall k :: k in args ==> a[k] == args[k]) &&
              ("methods" !in args ==> a["methods"] == VStr(httpMethod)) &&
              ("callback" !in args ==> a["callback"] == VList([VRef(this), VStr("callback")])) &&
              ("permission_callback" !in args ==>
                 (a["permission_callback"] == VStr("__return_true") <==> permissionHandlers == [])) &&
              ("depends" !in args ==> (a["depends"] == VNull <==> plugins.None?))
    {
    }

    /**
     * `register`: registers the route under the namespace with the filtered
     * arguments, and records the full route; when the filter leaves no
     * arguments, nothing is registered and the full route is kept.
     */
    method Register(namespace: string, restBase: string, host: Host) returns (ok: bool, reg: Option<Registration>)
      modifies this`fullRoute
      ensures var filtered := host.argsFilter(RouteArgs(plugins, permissionHandlers), namespace, restBase, VRef(this));
              ok == (filtered != map[]) &&
              (ok ==> reg == Some(Registration(namespace, JoinRoute(restBase, route), filtered, override)))
      ensures ok ==> fullRoute == "/" + namespace + "/" + JoinRoute(restBase, route)
      ensures !ok ==> reg == None && fullRoute == old(fullRoute)
    {
      var filtered := host.argsFilter(RouteArgs(plugins, permissionHandlers), namespace, restBase, VRef(this));
      if filtered == map[] {
        return false, None;
      }
      var r := JoinRoute(restBase, route);
      fullRoute := "/" + namespace + "/" + r;
      return true, Some(Registration(namespace, r, filtered, override));
    }

    /** `getInvoker`: the endpoint's invoker, created on first use. */
    method GetInvoker(host: Host) returns (inv: Injection.Invoker)
      requires Valid()
      modifies this`invoker
      ensures Valid() && inv == invoker
      ensures old(invoker) != null ==> inv == old(invoker)
      ensures old(invoker) == null ==> fresh(inv) && fresh(inv.inject) && inv.inject.functions == host.functions &&
                                       inv.inject.State() == Injection.Trail({}, map[], map[], map[], []) &&
                                       inv.inject.injectables == Injection.Builtins && inv.validate == host.validate
    {
      if invoker == null {
        invoker := new Injection.Invoker(host.validate, host.functions);
      }
      inv := invoker;
    }

    /**
     * `getInvoker()->call(...)` for one handler with the context's named
     * values: the outcome is `Invoker::call`'s in the invoker's scope for
     * `ctx`, from the bookkeeping as it stood.
     */
    method CallHandler(h: Handler, ctx: Context, host: Host) returns (o: Result<Value>, ghost args: Option<seq<Value>>)
      requires Valid()
      modifies this`invoker, InjectFrame()
      ensures Valid() && invoker != null && SameScope(host)
      ensures ScopeFor(ctx, host) == old(ScopeFor(ctx, host))
      ensures Injection.Called(o, args, Bookkeeping()) == Injection.CallOutcome(ScopeFor(ctx, host), h, old(Bookkeeping()))
      ensures FromBody(h, o, args)
    {
      var inv := GetInvoker(host);
      ghost var before := inv.inject.State();
      assert before == old(Bookkeeping());
      o, args := inv.Call(h, ctx);
      assert ScopeFor(ctx, host) == Injection.Scope(inv.inject.injectables, inv.inject.functions, inv.validate, ctx);
    }

    /**
     * `runHandlers`: calls the handlers in order with the context's named
     * values and stops at the first that returns an error or a response (a
     * caught exception becoming an error); the result is `RunSpec` of the
     * outcomes of the calls made, one per handler up to the halting one,
     * and each call is `Invoker::call` with `ctx`, from the bookkeeping the
     * previous call left (`trails`).
     */
    method RunHandlers(handlers: seq<Handler>, ctx: Context, returnResult: bool, host: Host)
      returns (r: Result<Value>, ghost outcomes: seq<Result<Value>>, ghost received: seq<Option<seq<Value>>>,
               ghost trails: seq<Injection.Trail>)
      requires Valid()
      modifies this`invoker, InjectFrame()
      ensures Valid() && SameScope(host)
      ensures r == RunSpec(outcomes, returnResult, VNull)
      ensures RanToEnd(handlers, outcomes, received)
      ensures ScopeFor(ctx, host) == old(ScopeFor(ctx, host))
      ensures Chained(ScopeFor(ctx, host), handlers, outcomes, received, trails)
      ensures trails[0] == old(Bookkeeping()) && trails[|outcomes|] == Bookkeeping()
    {
      ghost var scope := ScopeFor(ctx, host);
      var result := VNull;
      outcomes, received, trails := [], [], [Bookkeeping()];
      var i := 0;
      while i < |handlers|
        invariant 0 <= i <= |handlers| && |outcomes| == i
        invariant Valid() && SameScope(host) && ScopeFor(ctx, host) == scope
        invariant forall k :: 0 <= k < i ==> !Halts(Settle(outcomes[k]))
        invariant Ran(handlers, outcomes, received)
        invariant result == LastValue(outcomes, VNull)
        invariant Chained(scope, handlers, outcomes, received, trails)
        invariant trails[0] == old(Bookkeeping()) && trails[i] == Bookkeeping()
      {
        var o;
        o, outcomes, received, trails := CallNext(handlers, i, ctx, host, scope, outcomes, received, trails);
        var s := Settle(o);
        if Halts(s) {
          LastHalts(outcomes, returnResult);
          r := s;
          break;
        }
        result := s.value;
        i := i + 1;
      }
      if i == |handlers| {
        NoHaltResult(outcomes, returnResult);
        r := Ok(if returnResult then result else VNull);
      }
    }

    /** One pass of `runHandlers`' loop: the next handler's call, recorded. */
    method CallNext(handlers: seq<Handler>, i: nat, ctx: Context, host: Host, ghost scope: Injection.Scope,
                    ghost outcomes: seq<Result<Value>>, ghost received: seq<Option<seq<Value>>>, ghost trails: seq<Injection.Trail>)
      returns (o: Result<Value>, ghost outcomes': seq<Result<Value>>, ghost received': seq<Option<seq<Value>>>,
               ghost trails': seq<Injection.Trail>)
      requires Valid() && i == |outcomes| < |handlers| && scope == ScopeFor(ctx, host)
      requires Ran(handlers, outcomes, received) && Chained(scope, handlers, outcomes, received, trails)
      requires trails[|outcomes|] == Bookkeeping()
      modifies this`invoker, InjectFrame()
      ensures Valid() && SameScope(host) && ScopeFor(ctx, host) == scope
      ensures outcomes' == outcomes + [o] && |received'| == |received| + 1 && received'[..|received|] == received
      ensures trails' == trails + [Bookkeeping()]
      ensures Ran(handlers, outcomes', received') && Chained(scope, handlers, outcomes', received', trails')
    {
      ghost var args;
      o, args := CallHandler(handlers[i], ctx, host);
      RanOneMore(handlers, outcomes, received, o, args);
      ChainedOneMore(scope, handlers, outcomes, received, trails, o, args, Bookkeeping());
      outcomes', received', trails' := outcomes + [o], received + [args], trails + [Bookkeeping()];
    }

    /**
     * `callback`: runs the on-request handlers, the main handler and the
     * on-response handlers against one fresh response, stopping at the first
     * phase that yields an error or a response; the main handler's value
     * becomes the response data. The answer is always an error or a
     * response (or an uncaught `Error`). Every handler is called with this
     * endpoint, the request and that response, the calls of each phase
     * starting from the bookkeeping the phase before left.
     */
    method Callback(request: Request, host: Host)
      returns (r: Result<Value>, response: Response,
               ghost pre: seq<Result<Value>>, ghost preArgs: seq<Option<seq<Value>>>, ghost preTrails: seq<Injection.Trail>,
               ghost main: seq<Result<Value>>, ghost mainArgs: seq<Option<seq<Value>>>, ghost mainTrails: seq<Injection.Trail>,
               ghost post: seq<Result<Value>>, ghost postArgs: seq<Option<seq<Value>>>, ghost postTrails: seq<Injection.Trail>,
               ghost scope: Injection.Scope)
      requires Valid()
      modifies this`invoker, InjectFrame()
      ensures Valid() && fresh(response) && SameScope(host)
      ensures r == Lifecycle(RunSpec(pre, false, VNull), RunSpec(main, true, VNull), RunSpec(post, false, VNull), response)
      ensures r.Ok? ==> r.value.VError? || r.value.VResponse?
      ensures RanToEnd(onRequestHandlers, pre, preArgs)
      ensures Halts(RunSpec(pre, false, VNull)) ==> main == [] && post == []
      ensures !Halts(RunSpec(pre, false, VNull)) ==> RanToEnd([handler], main, mainArgs) && |main| == 1
      ensures Halts(RunSpec(main, true, VNull)) ==> post == []
      ensures !Halts(RunSpec(pre, false, VNull)) && !Halts(RunSpec(main, true, VNull)) ==>
                RanToEnd(onResponseHandlers, post, postArgs) &&
                response.data == RunSpec(main, true, VNull).value
      ensures scope == ScopeFor(HandlerContext(request, Some(response)), host)
      ensures !Halts(RunSpec(pre, false, VNull)) && TakesContext(handler) ==>
                mainArgs == [Some(ContextArgs(handler, HandlerContext(request, Some(response))))] &&
                main == [handler.body(ContextArgs(handler, HandlerContext(request, Some(response))))]
      ensures Chained(scope, onRequestHandlers, pre, preArgs, preTrails)
      ensures Chained(scope, [handler], main, mainArgs, mainTrails)
      ensures Chained(scope, onResponseHandlers, post, postArgs, postTrails)
      ensures preTrails[0] == old(Bookkeeping()) && mainTrails[0] == preTrails[|pre|] &&
              postTrails[0] == mainTrails[|main|] && postTrails[|post|] == Bookkeeping()
    {
      response := new Response();
      var ctx := HandlerContext(request, Some(response));
      scope := ScopeFor(ctx, host);
      r, pre, preArgs, preTrails, main, mainArgs, mainTrails, post, postArgs, postTrails := Serve(ctx, response, host);
    }

    /** `callback` once the response exists: the three phases with the context `ctx`. */
    method Serve(ctx: Context, response: Response, host: Host)
      returns (r: Result<Value>,
               ghost pre: seq<Result<Value>>, ghost preArgs: seq<Option<seq<Value>>>, ghost preTrails: seq<Injection.Trail>,
               ghost main: seq<Result<Value>>, ghost mainArgs: seq<Option<seq<Value>>>, ghost mainTrails: seq<Injection.Trail>,
               ghost post: seq<Result<Value>>, ghost postArgs: seq<Option<seq<Value>>>, ghost postTrails: seq<Injection.Trail>)
      requires Valid()
      modifies this`invoker, InjectFrame(), response
      ensures Valid() && SameScope(host)
      ensures r == Lifecycle(RunSpec(pre, false, VNull), RunSpec(main, true, VNull), RunSpec(post, false, VNull), response)
      ensures RanToEnd(onRequestHandlers, pre, preArgs)
      ensures Halts(RunSpec(pre, false, VNull)) ==> main == [] && post == []
      ensures !Halts(RunSpec(pre, false, VNull)) ==> RanToEnd([handler], main, mainArgs) && |main| == 1
      ensures Halts(RunSpec(main, true, VNull)) ==> post == []
      ensures !Halts(RunSpec(pre, false, VNull)) && !Halts(RunSpec(main, true, VNull)) ==>
                RanToEnd(onResponseHandlers, post, postArgs) &&
                response.data == RunSpec(main, true, VNull).value
      ensures !Halts(RunSpec(pre, false, VNull)) && TakesContext(handler) ==>
                mainArgs == [Some(ContextArgs(handler, ctx))] && main == [handler.body(ContextArgs(handler, ctx))]
      ensures ScopeFor(ctx, host) == old(ScopeFor(ctx, host))
      ensures Chained(ScopeFor(ctx, host), onRequestHandlers, pre, preArgs, preTrails)
      ensures Chained(ScopeFor(ctx, host), [handler], main, mainArgs, mainTrails)
      ensures Chained(ScopeFor(ctx, host), onResponseHandlers, post, postArgs, postTrails)
      ensures preTrails[0] == old(Bookkeeping()) && mainTrails[0] == preTrails[|pre|] &&
              postTrails[0] == mainTrails[|main|] && postTrails[|post|] == Bookkeeping()
    {
      var first;
      first, pre, preArgs, preTrails := RunHandlers(onRequestHandlers, ctx, false, host);
      if Halts(first) {
        main, mainArgs, mainTrails := [], [], [Bookkeeping()];
        post, postArgs, postTrails := [], [], [Bookkeeping()];
        return first, pre, preArgs, preTrails, main, mainArgs, mainTrails, post, postArgs, postTrails;
      }
      r, main, mainArgs, mainTrails, post, postArgs, postTrails := Respond(ctx, response, host);
    }

    /**
     * The rest of `callback` once the on-request handlers let the request
     * through: the main handler, then, unless it halts, the response takes
     * its result and the on-response handlers run.
     */
    method Respond(ctx: Context, response: Response, host: Host)
      returns (r: Result<Value>,
               ghost main: seq<Result<Value>>, ghost mainArgs: seq<Option<seq<Value>>>, ghost mainTrails: seq<Injection.Trail>,
               ghost post: seq<Result<Value>>, ghost postArgs: seq<Option<seq<Value>>>, ghost postTrails: seq<Injection.Trail>)
      requires Valid()
      modifies this`invoker, InjectFrame(), response
      ensures Valid() && SameScope(host)
      ensures r == Lifecycle(Ok(VNull), RunSpec(main, true, VNull), RunSpec(post, false, VNull), response)
      ensures RanToEnd([handler], main, mainArgs) && |main| == 1
      ensures Halts(RunSpec(main, true, VNull)) ==> post == []
      ensures !Halts(RunSpec(main, true, VNull)) ==>
                RanToEnd(onResponseHandlers, post, postArgs) &&
                response.data == RunSpec(main, true, VNull).value
      ensures TakesContext(handler) ==>
                mainArgs == [Some(ContextArgs(handler, ctx))] && main == [handler.body(ContextArgs(handler, ctx))]
      ensures ScopeFor(ctx, host) == old(ScopeFor(ctx, host))
      ensures Chained(ScopeFor(ctx, host), [handler], main, mainArgs, mainTrails) &&
              Chained(ScopeFor(ctx, host), onResponseHandlers, post, postArgs, postTrails)
      ensures mainTrails[0] == old(Bookkeeping()) && postTrails[0] == mainTrails[|main|] && postTrails[|post|] == Bookkeeping()
    {
      var value;
      value, main, mainArgs, mainTrails := RunMain(ctx, host);
      if Halts(value) {
        post, postArgs, postTrails := [], [], [Bookkeeping()];
        return value, main, mainArgs, mainTrails, post, postArgs, postTrails;
      }
      r, post, postArgs, postTrails := Deliver(value.value, ctx, response, host);
    }

    /**
     * The last phase of `callback`: the response takes the main handler's
     * value, then the on-response handlers run; unless one of them halts,
     * the answer is the response.
     */
    method Deliver(v: Value, ctx: Context, response: Response, host: Host)
      returns (r: Result<Value>, ghost post: seq<Result<Value>>, ghost postArgs: seq<Option<seq<Value>>>,
               ghost postTrails: seq<Injection.Trail>)
      requires Valid()
      modifies this`invoker, InjectFrame(), response
      ensures Valid() && SameScope(host)
      ensures response.data == v
      ensures Halts(RunSpec(post, false, VNull)) ==> r == RunSpec(post, false, VNull)
      ensures !Halts(RunSpec(post, false, VNull)) ==> r == Ok(VResponse(response))
      ensures RanToEnd(onResponseHandlers, post, postArgs)
      ensures ScopeFor(ctx, host) == old(ScopeFor(ctx, host))
      ensures Chained(ScopeFor(ctx, host), onResponseHandlers, post, postArgs, postTrails)
      ensures postTrails[0] == old(Bookkeeping()) && postTrails[|post|] == Bookkeeping()
    {
      response.SetData(v);
      var last;
      last, post, postArgs, postTrails := RunHandlers(onResponseHandlers, ctx, false, host);
      if Halts(last) {
        return last, post, postArgs, postTrails;
      }
      r := Ok(VResponse(response));
    }

    /**
     * The main phase of `callback`: `runHandlers` on the endpoint's handler
     * alone, asking for its result; a handler that takes only the context's
     * objects is called on exactly those.
     */
    method RunMain(ctx: Context, host: Host)
      returns (r: Result<Value>, ghost main: seq<Result<Value>>, ghost mainArgs: seq<Option<seq<Value>>>,
               ghost mainTrails: seq<Injection.Trail>)
      requires Valid()
      modifies this`invoker, InjectFrame()
      ensures Valid() && SameScope(host)
      ensures r == RunSpec(main, true, VNull)
      ensures RanToEnd([handler], main, mainArgs)
      ensures TakesContext(handler) ==>
                mainArgs == [Some(ContextArgs(handler, ctx))] && main == [handler.body(ContextArgs(handler, ctx))]
      ensures ScopeFor(ctx, host) == old(ScopeFor(ctx, host))
      ensures Chained(ScopeFor(ctx, host), [handler], main, mainArgs, mainTrails)
      ensures mainTrails[0] == old(Bookkeeping()) && mainTrails[|main|] == Bookkeeping()
    {
      r, main, mainArgs, mainTrails := RunHandlers([handler], ctx, true, host);
      if TakesContext(handler) {
        ContextRun(ScopeFor(ctx, host), [handler], main, mainArgs, mainTrails);
      }
    }

    /**
     * `permissionCallback`: runs the permission handlers with the endpoint
     * and the request (and no response); an error they yield is the
     * answer, anything else (a response included) grants access.
     */
    method PermissionCallback(request: Request, host: Host)
      returns (r: Result<Value>, ghost outcomes: seq<Result<Value>>, ghost received: seq<Option<seq<Value>>>,
               ghost trails: seq<Injection.Trail>)
      requires Valid()
      modifies this`invoker, InjectFrame()
      ensures Valid() && SameScope(host)
      ensures RanToEnd(permissionHandlers, outcomes, received)
      ensures var run := RunSpec(outcomes, false, VNull);
              (run.Err? || run.value.VError? ==> r == run) &&
              (run.Ok? && !run.value.VError? ==> r == Ok(VBool(true)))
      ensures r.Ok? ==> r.value.VError? || r.value == VBool(true)
      ensures Chained(ScopeFor(HandlerContext(request, None), host), permissionHandlers, outcomes, received, trails)
      ensures trails[0] == old(Bookkeeping()) && trails[|outcomes|] == Bookkeeping()
    {
      var ctx := HandlerContext(request, None);
      var run;
      run, outcomes, received, trails := RunHandlers(permissionHandlers, ctx, false, host);
      if run.Err? || run.value.VError? {
        return run, outcomes, received, trails;
      }
      r := Ok(VBool(true));
    }

    /** `permission`: appends a permission handler. */
    method Permission(h: Handler) returns (self: Endpoint)
      modifies this`permissionHandlers
      ensures permissionHandlers == old(permissionHandlers) + [h] && self == this
    {
      permissionHandlers := permissionHandlers + [h];
      self := this;
    }

    /**
     * `hasCap`: an empty or "0" capability stops the request (`wp_die`);
     * otherwise appends the capability handler.
     */
    method HasCap(capability: string, args: seq<Value>, host: Host) returns (r: Result<Endpoint>)
      modifies this`permissionHandlers
      ensures PhpStrings.IsFalsy(capability) <==> r == Err(Fatal(InvalidCapability))
      ensures PhpStrings.IsFalsy(capability) ==> permissionHandlers == old(permissionHandlers)
      ensures !PhpStrings.IsFalsy(capability) ==>
                r == Ok(this) && permissionHandlers == old(permissionHandlers) + [CapHandler(capability, args, host.can)]
    {
      if PhpStrings.IsFalsy(capability) {
        return Err(Fatal(InvalidCapability));
      }
      var self := Permission(CapHandler(capability, args, host.can));
      return Ok(self);
    }

    /** `middleware`: hooks each method the middleware has. */
    method UseMiddleware(m: Middleware) returns (self: Endpoint)
      modifies this`onRequestHandlers, this`onResponseHandlers
      ensures onRequestHandlers == old(onRequestHandlers) + (if m.onRequest.Some? then [m.onRequest.value] else [])
      ensures onResponseHandlers == old(onResponseHandlers) + (if m.onResponse.Some? then [m.onResponse.value] else [])
      ensures self == this
    {
      if m.onRequest.Some? {
        onRequestHandlers := onRequestHandlers + [m.onRequest.value];
      }
      if m.onResponse.Some? {
        onResponseHandlers := onResponseHandlers + [m.onResponse.value];
      }
      self := this;
    }

    /** `returns`: appends the response-schema middleware's on-response hook, given as `schemaHook`. */
    method Returns(schemaHook: Handler) returns (self: Endpoint)
      modifies this`onResponseHandlers
      ensures onResponseHandlers == old(onResponseHandlers) + [schemaHook] && self == this
    {
      onResponseHandlers := onResponseHandlers + [schemaHook];
      self := this;
    }

    /** `depends`: appends to the endpoint's plugins. */
    method Depends(arg: PluginDepends.PluginArg) returns (self: Endpoint)
      modifies this`plugins
      ensures plugins == Some(PluginDepends.AppendPlugins(old(plugins), arg)) && self == this
    {
      plugins := Some(PluginDepends.AppendPlugins(plugins, arg));
      self := this;
    }
  }
}
