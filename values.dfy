/**
 * The data the request-handling core passes around: PHP values, the
 * WordPress request and response, the error value, the descriptor of a
 * handler's declared parameters (what reflection and attributes report)
 * and the outcome of running PHP code (a value or a thrown object).
 */
module Values {

  datatype Option<T> = None | Some(value: T)

  /** A string-keyed PHP array. */
  type Params = map<string, Value>

  /**
   * A PHP value. Arrays come in two shapes: a list (`VList`, ordered) and a
   * string-keyed map (`VDict`). Objects are the request, a response, an
   * error, an opaque object identified by its class and an id, or a
   * reference to one of the model's own objects (an endpoint).
   */
  datatype Value =
    | VNull
    | VBool(b: bool)
    | VInt(i: int)
    | VStr(s: string)
    | VList(items: seq<Value>)
    | VDict(entries: map<string, Value>)
    | VObject(cls: string, id: nat)
    | VRef(obj: object)
    | VRequest(req: Request)
    | VResponse(resp: Response)
    | VError(err: WpError)

  /** `is_array($v)` */
  predicate IsArray(v: Value)
  {
    v.VList? || v.VDict?
  }

  /** `is_object($v)` */
  predicate IsObject(v: Value)
  {
    v.VObject? || v.VRef? || v.VRequest? || v.VResponse? || v.VError?
  }

  /**
   * A WordPress REST request, reduced to the parameter maps it exposes:
   * URL captures, query string, JSON body (null when the body is not valid
   * JSON), form body, headers, uploaded files and the merged view that
   * `has_param`/`get_param` consult. `cookies` stands for `$_COOKIE`.
   */
  datatype Request = Request(
    url: Params,
    query: Params,
    json: Option<Params>,
    body: Params,
    isJson: bool,
    headers: Params,
    cookies: Params,
    files: Params,
    params: Params)

  /** A WordPress REST response; only its data is modelled. */
  class Response {
    var data: Value

    constructor ()
      ensures data == VNull
    {
      data := VNull;
    }

    /** `WP_REST_Response::set_data` */
    method SetData(v: Value)
      modifies this
      ensures data == v
    {
      data := v;
    }
  }

  /** A `WP_Error` as built by the core: its code, its (first) message and its data array. */
  datatype WpError = WpError(code: int, message: string, data: Params)

  /** A type named in a signature; `builtin` holds for `int`, `string`, `array`, `object`, ... */
  datatype NamedType = NamedType(name: string, builtin: bool)

  /** A parameter's declared type: none, one named type, or a union of named types. */
  datatype ParamType = Untyped | Named(t: NamedType) | Union(members: seq<NamedType>)

  /** Where a `From` attribute on a parameter takes its values from. */
  datatype Source = Url | Query | Json | Body | Header | Cookie | Files | Any

  /**
   * What reflection reports about one declared parameter: its name and type,
   * its `From` source attributes in declaration order, its `Inject`
   * attribute (holding the optional injectable name), its first `Alias`
   * attribute and its default value.
   */
  datatype ParamDescriptor = ParamDescriptor(
    name: string,
    ty: ParamType,
    sources: seq<Source>,
    inject: Option<Option<string>>,
    alias: Option<string>,
    default: Option<Value>)

  /**
   * What PHP code can throw. `Fatal` is a PHP `Error` (a `TypeError`, a call
   * to an undefined method): it is not an `Exception` and no `catch (Exception)`
   * stops it.
   */
  datatype Throwable =
    | ValidationException(message: string, errors: Value)
    | InvocationException(message: string)
    | ReflectionException(message: string)
    | OtherException(message: string)
    | Fatal(message: string)

  /** Whether `catch (Exception $e)` catches it. */
  predicate IsException(t: Throwable)
  {
    !t.Fatal?
  }

  /** The outcome of running PHP code: a value, or a thrown object. */
  datatype Result<T> = Ok(value: T) | Err(error: Throwable)

  /**
   * A callable with its declared parameters and the `AliasGenerator`
   * attribute of the callable, if any. Its body maps the positional
   * arguments to what the call returns or throws.
   */
  datatype Handler = Handler(
    params: seq<ParamDescriptor>,
    aliasGenerator: Option<string -> string>,
    body: seq<Value> -> Result<Value>)

  /**
   * The named values an endpoint hands to every call: itself, the request,
   * and the response (absent during the permission check), plus the
   * endpoint's full route, which error messages quote.
   */
  datatype Context = Context(endpoint: Value, fullRoute: string, request: Request, response: Option<Response>)

  /** `$providedParameters[$name]`; a missing key reads as null. */
  function Provided(ctx: Context, name: string): Value
  {
    if name == "endpoint" then ctx.endpoint
    else if name == "request" then VRequest(ctx.request)
    else if name == "response" && ctx.response.Some? then VResponse(ctx.response.value)
    else VNull
  }
}
