/**
 * The first resolver stage: parameters whose effective name is `request`,
 * `response` or `endpoint` receive the object the endpoint provides under
 * that name. The effective name is the parameter's first alias, else the
 * callable's alias generator applied to its name.
 */
module StaticResolver {
  import opened Values

  /** `getDefaultAliasGenerator`: the callable's `AliasGenerator`, else the identity. */
  function AliasGenerator(h: Handler): (g: string -> string)
    ensures h.aliasGenerator.None? ==> forall n :: g(n) == n
    ensures h.aliasGenerator.Some? ==> forall n :: g(n) == h.aliasGenerator.value(n)
  {
    if h.aliasGenerator.Some? then h.aliasGenerator.value else (n: string) => n
  }

  /** `getParamName`: the first alias wins over the generator. */
  function ParamName(p: ParamDescriptor, generator: string -> string): string
  {
    if p.alias.Some? then p.alias.value else generator(p.name)
  }

  /** The effective name of the handler's `i`-th parameter. */
  function EffectiveName(h: Handler, i: int): string
    requires 0 <= i < |h.params|
  {
    ParamName(h.params[i], AliasGenerator(h))
  }

  /** The names this stage fills from the provided objects. */
  predicate IsWellKnown(name: string)
  {
    name == "request" || name == "response" || name == "endpoint"
  }

  /** The slots the stage leaves: the resolved ones, plus the well-known unresolved parameters with their provided objects. */
  function Slots(h: Handler, ctx: Context, resolved: map<int, Value>): (r: map<int, Value>)
    ensures forall i :: i in r <==> i in resolved || (0 <= i < |h.params| && IsWellKnown(EffectiveName(h, i)))
  {
    map i | i in resolved.Keys + (set j | 0 <= j < |h.params| && IsWellKnown(EffectiveName(h, j))) ::
      if i in resolved then resolved[i] else Provided(ctx, EffectiveName(h, i))
  }

  /**
   * `getParameters`: keeps every slot already resolved, and fills exactly
   * the unresolved parameters whose effective name is well known, each with
   * the provided object of that name. Type hints fill nothing: the source
   * tests a type name with `instanceof`, which never holds for a string.
   */
  method GetParameters(h: Handler, ctx: Context, resolved: map<int, Value>) returns (r: map<int, Value>)
    ensures forall i :: i in resolved ==> i in r && r[i] == resolved[i]
    ensures forall i :: i in r && i !in resolved ==> 0 <= i < |h.params| && IsWellKnown(EffectiveName(h, i))
    ensures forall i :: 0 <= i < |h.params| && i !in resolved && IsWellKnown(EffectiveName(h, i)) ==> i in r
    ensures forall i :: i in r && i !in resolved ==> r[i] == Provided(ctx, EffectiveName(h, i))
    ensures r == Slots(h, ctx, resolved)
  {
    r := resolved;
    var generator := AliasGenerator(h);
    var index := 0;
    while index < |h.params|
      invariant 0 <= index <= |h.params|
      invariant forall i :: i in resolved ==> i in r && r[i] == resolved[i]
      invariant forall i :: i in r && i !in resolved ==> 0 <= i < index && IsWellKnown(EffectiveName(h, i))
      invariant forall i :: 0 <= i < index && i !in resolved && IsWellKnown(EffectiveName(h, i)) ==> i in r
      invariant forall i :: i in r && i !in resolved ==> r[i] == Provided(ctx, EffectiveName(h, i))
    {
      if index !in resolved {
        var name := ParamName(h.params[index], generator);
        if IsWellKnown(name) {
          r := r[index := Provided(ctx, name)];
        }
      }
      index := index + 1;
    }
  }
}
