/**
 * The last resolver stage: the validator reads every parameter through the
 * lazily loaded view (seeded with the slots earlier stages filled) and
 * returns validated values by parameter name; these become the positional
 * arguments, a missing or null value falling back to the declared default.
 */
module ValidationResolver {
  import opened Values
  import LazyLoad

  /**
   * The validation library's `validateCallable`: given the declared
   * parameters, the request and the view's entries, the validated values by
   * parameter name, or what it throws (a `ValidationException`, ...).
   */
  type Validate = (seq<ParamDescriptor>, Request, LazyLoad.Storage) -> Result<Params>

  /** What `ReflectionParameter::getDefaultValue` throws for a parameter without a default. */
  const NoDefaultMessage: string := "Internal error: Failed to retrieve the default value"

  /** Whether the validated values hold a non-null value for the parameter (`isset`). */
  predicate HasValue(all: Params, p: ParamDescriptor)
  {
    p.name in all && all[p.name] != VNull
  }

  /** Whether every parameter has a validated value or a default. */
  predicate AllSupplied(all: Params, params: seq<ParamDescriptor>)
  {
    forall i :: 0 <= i < |params| ==> HasValue(all, params[i]) || params[i].default.Some?
  }

  /**
   * What `convertToNumericArgs` yields: one argument per declared parameter,
   * in order, its validated value when set and its default otherwise; and a
   * `ReflectionException` when some parameter has neither.
   */
  predicate NumericArgs(all: Params, params: seq<ParamDescriptor>, r: Result<seq<Value>>)
  {
    (r.Ok? <==> AllSupplied(all, params)) &&
    (r.Ok? ==> |r.value| == |params|) &&
    (r.Ok? ==> forall i :: 0 <= i < |params| ==>
                 r.value[i] == (if HasValue(all, params[i]) then all[params[i].name] else params[i].default.value)) &&
    (r.Err? ==> r.error == ReflectionException(NoDefaultMessage))
  }

  /** The one argument list (or exception) that `NumericArgs` allows. */
  function Converted(all: Params, params: seq<ParamDescriptor>): (r: Result<seq<Value>>)
    ensures NumericArgs(all, params, r)
  {
    if AllSupplied(all, params) then
      Ok(seq(|params|, i requires 0 <= i < |params| && (HasValue(all, params[i]) || params[i].default.Some?) =>
               if HasValue(all, params[i]) then all[params[i].name] else params[i].default.value))
    else Err(ReflectionException(NoDefaultMessage))
  }

  /** `NumericArgs` leaves no choice: whatever it allows is `Converted`. */
  lemma NumericArgsUnique(all: Params, params: seq<ParamDescriptor>, r: Result<seq<Value>>)
    requires NumericArgs(all, params, r)
    ensures r == Converted(all, params)
  {
    if r.Ok? {
      assert r.value == Converted(all, params).value;
    }
  }

  /** `convertToNumericArgs` */
  method ConvertToNumericArgs(all: Params, params: seq<ParamDescriptor>) returns (r: Result<seq<Value>>)
    ensures NumericArgs(all, params, r)
  {
    var args: seq<Value> := [];
    var index := 0;
    while index < |params|
      invariant 0 <= index <= |params| && |args| == index
      invariant forall i :: 0 <= i < index ==> HasValue(all, params[i]) || params[i].default.Some?
      invariant forall i :: 0 <= i < index ==>
        args[i] == (if HasValue(all, params[i]) then all[params[i].name] else params[i].default.value)
    {
      var p := params[index];
      if HasValue(all, p) {
        args := args + [all[p.name]];
      } else if p.default.Some? {
        args := args + [p.default.value];
      } else {
        return Err(ReflectionException(NoDefaultMessage));
      }
      index := index + 1;
    }
    return Ok(args);
  }

  /**
   * `getParameters`: builds the view over the request and the resolved
   * slots, validates through it, and converts the validated values to
   * positional arguments; a validation failure is passed on unchanged.
   */
  method GetParameters(validate: Validate, h: Handler, ctx: Context, resolved: map<int, Value>)
    returns (r: Result<seq<Value>>)
    ensures var v := validate(h.params, ctx.request, LazyLoad.Seed(resolved));
            (v.Err? ==> r == Err(v.error)) && (v.Ok? ==> NumericArgs(v.value, h.params, r))
    ensures r == Validated(validate, h, ctx, resolved)
  {
    var view := new LazyLoad.LazyLoadParameters(h.params, ctx.request, resolved);
    var validated := validate(view.params, view.request, view.storage);
    if validated.Err? {
      return Err(validated.error);
    }
    r := ConvertToNumericArgs(validated.value, h.params);
    NumericArgsUnique(validated.value, h.params, r);
  }

  /** What the stage yields: the validator's failure, or the conversion of its values. */
  function Validated(validate: Validate, h: Handler, ctx: Context, resolved: map<int, Value>): (r: Result<seq<Value>>)
    ensures var v := validate(h.params, ctx.request, LazyLoad.Seed(resolved));
            (v.Err? ==> r == Err(v.error)) && (v.Ok? ==> NumericArgs(v.value, h.params, r))
  {
    var v := validate(h.params, ctx.request, LazyLoad.Seed(resolved));
    if v.Err? then Err(v.error) else Converted(v.value, h.params)
  }

  /** A parameter missing from the validated values, without a default, makes the conversion throw. */
  lemma MissingWithoutDefaultThrows(all: Params, params: seq<ParamDescriptor>, i: int, r: Result<seq<Value>>)
    requires 0 <= i < |params| && !HasValue(all, params[i]) && params[i].default.None?
    requires NumericArgs(all, params, r)
    ensures r == Err(ReflectionException(NoDefaultMessage))
  {
  }
}
