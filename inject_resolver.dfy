/**
 * Dependency injection: the resolver stage that fills parameters marked
 * `Inject` from a registry of injectables, and the invoker that runs the
 * three resolver stages in their fixed order (static, inject, validation)
 * and then calls the callable with the positional arguments.
 *
 * An injectable that is callable is resolved by calling it through the same
 * invoker, so resolution is recursive; its result is memoised, and a call
 * stack of the names being resolved detects cycles.
 */
module Injection {
  import opened Values
  import PhpStrings
  import LazyLoad
  import StaticResolver
  import ValidationResolver

  /** A registry entry: a plain value, or a callable that computes the value. */
  datatype Injectable = Literal(v: Value) | Callable(h: Handler)

  /** The objects the resolver registers for itself under `validator` and `serializer`. */
  const ValidatorObject: Value := VObject("Validator", 0)
  const SerializerObject: Value := VObject("Serializer", 0)

  /** What a new resolver holds: the validator and the serializer, under those names. */
  const Builtins: map<string, Injectable> := map["validator" := Literal(ValidatorObject), "serializer" := Literal(SerializerObject)]

  /** The message for a name neither registered nor callable. */
  function MissingMessage(param: string, route: string): string
  {
    "Injectable not found for parameter " + param + " in route " + route
  }

  /** The message for a name met again while it is being resolved. */
  function LoopMessage(route: string): string
  {
    "Infinite injectables loop in route " + route
  }

  /** The injectable a parameter asks for: the `Inject` attribute's name, or the parameter's own when that is null, "" or "0". */
  function InjectName(p: ParamDescriptor): (name: string)
    requires p.inject.Some?
    ensures name == p.name || (p.inject.value == Some(name) && !PhpStrings.IsFalsy(name))
    ensures p.inject.value.Some? && !PhpStrings.IsFalsy(p.inject.value.value) ==> name == p.inject.value.value
  {
    var attr := p.inject.value;
    if attr.None? || PhpStrings.IsFalsy(attr.value) then p.name else attr.value
  }

  /** `isset($injectables[$name])`: registered, with a non-null value. */
  predicate IsSet(injectables: map<string, Injectable>, name: string)
  {
    name in injectables && !(injectables[name].Literal? && injectables[name].v == VNull)
  }

  /** `$injectables[$name] ?? $name` */
  function Entry(injectables: map<string, Injectable>, name: string): Injectable
  {
    if IsSet(injectables, name) then injectables[name] else Literal(VStr(name))
  }

  /** `is_callable`: a callable entry, or a string naming a global function. */
  function AsCallable(inj: Injectable, functions: map<string, Handler>): Option<Handler>
  {
    match inj
    case Callable(h) => Some(h)
    case Literal(v) => if v.VStr? && v.s in functions then Some(functions[v.s]) else None
  }

  /** Whether a name's value is memoised (`isset($resolvedInjectables[$name])`). */
  predicate Memoised(memo: map<string, Value>, name: string)
  {
    name in memo && memo[name] != VNull
  }

  /** Memoised values are never dropped or replaced. */
  ghost predicate MemoKept(before: map<string, Value>, after: map<string, Value>)
  {
    forall n :: Memoised(before, n) ==> n in after && after[n] == before[n]
  }

  /** The invocations log only grows, and no callable whose value was memoised is called again. */
  ghost predicate NoRecall(memo: map<string, Value>, before: seq<string>, after: seq<string>)
  {
    before <= after && forall k :: |before| <= k < |after| ==> !Memoised(memo, after[k])
  }

  /** No name in the log is one of `names`. */
  ghost predicate Outside(names: set<string>, log: seq<string>)
  {
    forall k :: 0 <= k < |log| ==> log[k] !in names
  }

  /**
   * Each name in the log was called once and its value is memoised, unless
   * its callable returned null at some point (a name in `nulled`): a null
   * value is stored but does not count as memoised, so such a name may be
   * called again.
   */
  ghost predicate Once(memo: map<string, Value>, nulled: map<string, seq<Value>>, log: seq<string>)
  {
    (forall i, j :: 0 <= i < j < |log| && log[i] == log[j] ==> log[i] in nulled) &&
    (forall k :: 0 <= k < |log| ==> log[k] in nulled || Memoised(memo, log[k]))
  }

  /**
   * `nulled` went from `before` to `after` by adding (or re-recording) names
   * together with arguments on which their callable returns null.
   */
  ghost predicate NullsWitnessed(injectables: map<string, Injectable>, functions: map<string, Handler>,
                                 before: map<string, seq<Value>>, after: map<string, seq<Value>>)
  {
    before.Keys <= after.Keys &&
    forall n :: n in after ==>
      (n in before && after[n] == before[n]) ||
      (AsCallable(Entry(injectables, n), functions).Some? &&
       AsCallable(Entry(injectables, n), functions).value.body(after[n]) == Ok(VNull))
  }

  /**
   * Two stretches of calls, the second made after the first (the log going
   * from `start` to `mid` to `end`): when each called its names once, and
   * the second called none memoised before it, together they called each
   * name once.
   */
  lemma {:induction false} OnceJoin(memo1: map<string, Value>, memo2: map<string, Value>,
                                    nulled1: map<string, seq<Value>>, nulled2: map<string, seq<Value>>,
                                    start: seq<string>, mid: seq<string>, end: seq<string>)
    requires start <= mid && NoRecall(memo1, mid, end) && MemoKept(memo1, memo2) && nulled1.Keys <= nulled2.Keys
    requires Once(memo1, nulled1, mid[|start|..]) && Once(memo2, nulled2, end[|mid|..])
    ensures Once(memo2, nulled2, end[|start|..])
  {
    var a, b, all := mid[|start|..], end[|mid|..], end[|start|..];
    assert all == a + b;
    forall k | 0 <= k < |a|
      ensures all[k] in nulled2 || Memoised(memo2, all[k])
    {
      assert all[k] == a[k];
    }
    forall k | |a| <= k < |all|
      ensures all[k] in nulled2 || Memoised(memo2, all[k])
    {
      assert all[k] == b[k - |a|];
    }
    forall i, j | 0 <= i < j < |all| && all[i] == all[j]
      ensures all[i] in nulled2
    {
      if j >= |a| && i < |a| {
        assert all[i] == a[i];
        assert all[j] == end[|start| + j] && !Memoised(memo1, end[|start| + j]);
      } else if i >= |a| {
        assert all[i] == b[i - |a|] && all[j] == b[j - |a|];
      } else {
        assert all[i] == a[i] && all[j] == a[j];
      }
    }
  }

  /**
   * The resolver's call bookkeeping: the call stack, the memo, the
   * arguments of the call each memoised callable value came from, the names
   * whose callable returned null (with the arguments), and the log of calls.
   */
  datatype Trail = Trail(stack: set<string>, memo: map<string, Value>, calls: map<string, seq<Value>>,
                         nulled: map<string, seq<Value>>, log: seq<string>)

  /**
   * `v` is what the registry gives for `name`: a non-callable entry's own
   * value, or what the callable returned on the arguments recorded for it.
   */
  ghost predicate Produced(injectables: map<string, Injectable>, functions: map<string, Handler>,
                           name: string, v: Value, calls: map<string, seq<Value>>)
  {
    match AsCallable(Entry(injectables, name), functions)
    case None => v == Entry(injectables, name).v
    case Some(h) => name in calls && h.body(calls[name]) == Ok(v)
  }

  /** The memo entry and the recorded call of `name` are the same in `a` and `b`. */
  ghost predicate KeptEntry(a: Trail, b: Trail, name: string)
  {
    name in a.memo && name in b.memo && b.memo[name] == a.memo[name] &&
    (name in a.calls <==> name in b.calls) && (name in a.calls ==> b.calls[name] == a.calls[name])
  }

  /** Every memo entry at `b` was there unchanged at `a`, or is what the registry produced. */
  ghost predicate Sourced(injectables: map<string, Injectable>, functions: map<string, Handler>, a: Trail, b: Trail)
  {
    forall n :: n in b.memo ==> KeptEntry(a, b, n) || Produced(injectables, functions, n, b.memo[n], b.calls)
  }

  /**
   * How the bookkeeping may go from `a` to `b` over one resolution: no
   * memoised value is lost, no callable memoised at `a` is called, every
   * new memo entry is what the registry produced, null results are recorded
   * with arguments that give them, no call is made to a name on `a`'s call
   * stack, and when the resolution succeeded each callable it called ran
   * once (`Once`).
   */
  ghost predicate Logged(injectables: map<string, Injectable>, functions: map<string, Handler>, a: Trail, b: Trail, ok: bool)
  {
    MemoKept(a.memo, b.memo) && NoRecall(a.memo, a.log, b.log) &&
    Sourced(injectables, functions, a, b) &&
    NullsWitnessed(injectables, functions, a.nulled, b.nulled) &&
    Outside(a.stack, b.log[|a.log|..]) &&
    (ok ==> Once(b.memo, b.nulled, b.log[|a.log|..]))
  }

  /** Nothing called and nothing memoised: the bookkeeping is unchanged. */
  lemma LoggedNothing(injectables: map<string, Injectable>, functions: map<string, Handler>, a: Trail, ok: bool)
    ensures Logged(injectables, functions, a, a, ok)
  {
    assert a.log[|a.log|..] == [];
  }

  /** Memoising the registry's value for a name not yet memoised, without calling anything. */
  lemma LoggedStored(injectables: map<string, Injectable>, functions: map<string, Handler>, a: Trail, name: string, v: Value)
    requires !Memoised(a.memo, name) && Produced(injectables, functions, name, v, a.calls)
    ensures Logged(injectables, functions, a, a.(memo := a.memo[name := v]), true)
  {
    assert a.log[|a.log|..] == [];
  }

  /** Two resolutions in a row, the call stack not shrinking in between. */
  lemma LoggedJoin(injectables: map<string, Injectable>, functions: map<string, Handler>,
                   a: Trail, b: Trail, c: Trail, ok1: bool, ok2: bool)
    requires a.stack <= b.stack
    requires Logged(injectables, functions, a, b, ok1) && Logged(injectables, functions, b, c, ok2)
    ensures Logged(injectables, functions, a, c, ok1 && ok2)
  {
    assert c.log[|a.log|..] == b.log[|a.log|..] + c.log[|b.log|..];
    if ok1 && ok2 {
      OnceJoin(b.memo, c.memo, b.nulled, c.nulled, a.log, b.log, c.log);
    }
  }

  /** The bookkeeping once a callable's call has returned `v` for `args`. */
  function Memoise(t: Trail, name: string, v: Value, args: seq<Value>): Trail
  {
    t.(stack := t.stack - {name}, memo := t.memo[name := v], calls := t.calls[name := args],
       nulled := if v == VNull then t.nulled[name := args] else t.nulled)
  }

  /**
   * The call of `name`'s callable: logged and pushed on the stack at `a`,
   * then the calls it set off took the bookkeeping to `c`. On success it
   * returned `v` for `args`, which is memoised (and recorded when null).
   */
  lemma CallRecorded(injectables: map<string, Injectable>, functions: map<string, Handler>, name: string, h: Handler,
                     a: Trail, c: Trail, ok: bool, v: Value, args: seq<Value>)
    requires !Memoised(a.memo, name) && name !in a.stack
    requires Logged(injectables, functions, a.(stack := a.stack + {name}, log := a.log + [name]), c, ok)
    requires ok ==> AsCallable(Entry(injectables, name), functions) == Some(h) && h.body(args) == Ok(v)
    ensures |c.log| > |a.log| && c.log[|a.log|] == name
    ensures Logged(injectables, functions, a, if ok then Memoise(c, name, v, args) else c, ok)
  {
    assert (a.log + [name])[|a.log|] == name;
    if ok {
      CallSucceeded(injectables, functions, name, h, a, c, v, args);
    } else {
      assert c.log[|a.log|..] == [name] + c.log[|a.log| + 1..];
    }
  }

  /** The successful half of `CallRecorded`: the memoised result keeps the bookkeeping logged. */
  lemma CallSucceeded(injectables: map<string, Injectable>, functions: map<string, Handler>, name: string, h: Handler,
                      a: Trail, c: Trail, v: Value, args: seq<Value>)
    requires !Memoised(a.memo, name) && name !in a.stack
    requires Logged(injectables, functions, a.(stack := a.stack + {name}, log := a.log + [name]), c, true)
    requires AsCallable(Entry(injectables, name), functions) == Some(h) && h.body(args) == Ok(v)
    ensures Logged(injectables, functions, a, Memoise(c, name, v, args), true)
  {
    var tail := c.log[|a.log| + 1..];
    assert (a.log + [name])[|a.log|] == name;
    assert c.log[|a.log|..] == [name] + tail;
    assert name !in tail by {
      assert tail == c.log[|a.log + [name]|..];
      assert name in (a.stack + {name});
    }
    RecordedOnce(c.memo, c.nulled, tail, name, v, args);
    RecordedSourced(injectables, functions, name, a, c, v, args);
  }

  /** The name just called, in front of a stretch that called it nowhere: still each name once. */
  lemma RecordedOnce(memo: map<string, Value>, nulled: map<string, seq<Value>>, tail: seq<string>,
                     name: string, v: Value, args: seq<Value>)
    requires Once(memo, nulled, tail) && name !in tail
    ensures Once(memo[name := v], if v == VNull then nulled[name := args] else nulled, [name] + tail)
  {
    var log := [name] + tail;
    forall i, j | 0 <= i < j < |log| && log[i] == log[j]
      ensures log[i] in (if v == VNull then nulled[name := args] else nulled)
    {
      assert log[j] == tail[j - 1];
    }
    forall k | 0 <= k < |log|
      ensures log[k] in (if v == VNull then nulled[name := args] else nulled) || Memoised(memo[name := v], log[k])
    {
      if k > 0 {
        assert log[k] == tail[k - 1] && log[k] != name;
      }
    }
  }

  /** Memoising what the callable of `name` returned keeps every memo entry sourced. */
  lemma RecordedSourced(injectables: map<string, Injectable>, functions: map<string, Handler>, name: string,
                        a: Trail, c: Trail, v: Value, args: seq<Value>)
    requires Sourced(injectables, functions, a, c)
    requires AsCallable(Entry(injectables, name), functions).Some?
    requires AsCallable(Entry(injectables, name), functions).value.body(args) == Ok(v)
    ensures Sourced(injectables, functions, a, Memoise(c, name, v, args))
  {
    var d := Memoise(c, name, v, args);
    forall n | n in d.memo
      ensures KeptEntry(a, d, n) || Produced(injectables, functions, n, d.memo[n], d.calls)
    {
      if n != name {
        assert n in c.memo && d.memo[n] == c.memo[n];
      }
    }
  }

  /**
   * `getParameters`' loop after the first `index` parameters: the resolved
   * slots are kept, and exactly the unresolved `Inject` parameters among
   * them are filled, a non-null value being the memoised one.
   */
  ghost predicate Filled(h: Handler, resolved: map<int, Value>, filled: map<int, Value>, index: nat, memo: map<string, Value>)
  {
    (forall i :: i in resolved ==> i in filled && filled[i] == resolved[i]) &&
    (forall i :: i in filled && i !in resolved ==> 0 <= i < index && i < |h.params| && h.params[i].inject.Some?) &&
    (forall i :: 0 <= i < index && i < |h.params| && i !in resolved && h.params[i].inject.Some? ==> i in filled) &&
    (forall i :: i in filled && i !in resolved && 0 <= i < |h.params| && h.params[i].inject.Some? && filled[i] != VNull ==>
       Memoised(memo, InjectName(h.params[i])) && memo[InjectName(h.params[i])] == filled[i])
  }

  /** One more parameter: filled with `v` when it is unresolved and marked `Inject`, passed over otherwise. */
  lemma FilledNext(h: Handler, resolved: map<int, Value>, filled: map<int, Value>, index: nat,
                   memo1: map<string, Value>, memo2: map<string, Value>, v: Value)
    requires index < |h.params| && Filled(h, resolved, filled, index, memo1) && MemoKept(memo1, memo2)
    requires index !in resolved && h.params[index].inject.Some? && v != VNull ==>
               Memoised(memo2, InjectName(h.params[index])) && memo2[InjectName(h.params[index])] == v
    ensures var next := if index !in resolved && h.params[index].inject.Some? then filled[index := v] else filled;
            Filled(h, resolved, next, index + 1, memo2)
  {
  }

  /** What a resolution works with: the registry, the global functions, the validator and the endpoint's context. */
  datatype Scope = Scope(injectables: map<string, Injectable>, functions: map<string, Handler>,
                         validate: ValidationResolver.Validate, ctx: Context)

  /** The names that can still be called: those of the registry and the functions not on the call stack. */
  ghost function Pending(s: Scope, t: Trail): set<string>
  {
    (s.injectables.Keys + s.functions.Keys) - t.stack
  }

  /** The outcome of a resolution step, with the bookkeeping after it. */
  datatype Step<T> = Step(r: Result<T>, t: Trail)

  /** The outcome of `call`: what the callable returned or threw, the arguments it received if it was called, the bookkeeping after. */
  datatype Called = Called(r: Result<Value>, args: Option<seq<Value>>, t: Trail)

  /**
   * `Invoker::call`: the static stage; when it leaves a parameter without a
   * slot, the inject stage; when that leaves one too, the validation stage;
   * then the callable's body on the positional arguments.
   */
  ghost function CallOutcome(s: Scope, h: Handler, t: Trail): (o: Called)
    decreases Pending(s, t), 3
    ensures o.r.Ok? ==> o.t.stack == t.stack
    ensures o.r.Err? ==> t.stack <= o.t.stack
    ensures t.log <= o.t.log
    ensures o.args.Some? ==> |o.args.value| == |h.params| && o.r == h.body(o.args.value)
    ensures o.args.None? ==> o.r.Err?
  {
    var slots := StaticResolver.Slots(h, s.ctx, map[]);
    if AllResolved(h, slots) then
      Called(h.body(Positional(h, slots)), Some(Positional(h, slots)), t)
    else
      var filled := FillOutcome(s, h, slots, slots, 0, t);
      if filled.r.Err? then Called(Err(filled.r.error), None, filled.t)
      else if AllResolved(h, filled.r.value) then
        Called(h.body(Positional(h, filled.r.value)), Some(Positional(h, filled.r.value)), filled.t)
      else
        var v := ValidationResolver.Validated(s.validate, h, s.ctx, filled.r.value);
        if v.Err? then Called(Err(v.error), None, filled.t)
        else Called(h.body(v.value), Some(v.value), filled.t)
  }

  /**
   * A callable whose parameters are all filled by the static stage is
   * called on what the context provides, and nothing is injected or called
   * on the way.
   */
  lemma StaticCall(s: Scope, h: Handler, t: Trail)
    requires forall i :: 0 <= i < |h.params| ==> StaticResolver.IsWellKnown(StaticResolver.EffectiveName(h, i))
    ensures var o := CallOutcome(s, h, t);
            o.t == t && o.args.Some? &&
            forall i :: 0 <= i < |h.params| ==> o.args.value[i] == Provided(s.ctx, StaticResolver.EffectiveName(h, i))
  {
    var slots := StaticResolver.Slots(h, s.ctx, map[]);
    assert AllResolved(h, slots);
  }

  /** `getParameters` from parameter `index` on, with the slots `filled` so far. */
  ghost function FillOutcome(s: Scope, h: Handler, resolved: map<int, Value>, filled: map<int, Value>, index: nat, t: Trail)
    : (o: Step<map<int, Value>>)
    requires index <= |h.params|
    decreases Pending(s, t), 2, |h.params| - index
    ensures o.r.Ok? ==> o.t.stack == t.stack
    ensures o.r.Err? ==> t.stack <= o.t.stack
    ensures t.log <= o.t.log
  {
    if index == |h.params| then Step(Ok(filled), t)
    else if index !in resolved && h.params[index].inject.Some? then
      var v := ResolveOutcome(s, h.params[index], t);
      if v.r.Err? then Step(Err(v.r.error), v.t)
      else FillOutcome(s, h, resolved, filled[index := v.r.value], index + 1, v.t)
    else FillOutcome(s, h, resolved, filled, index + 1, t)
  }

  /** The resolution of one parameter marked `Inject`, as `getParameters`' loop body does it. */
  ghost function ResolveOutcome(s: Scope, p: ParamDescriptor, t: Trail): (o: Step<Value>)
    requires p.inject.Some?
    decreases Pending(s, t), 1
    ensures o.r.Ok? ==> o.t.stack == t.stack
    ensures o.r.Err? ==> t.stack <= o.t.stack
    ensures t.log <= o.t.log
    ensures o.r.Ok? ==> InjectName(p) in o.t.memo && o.t.memo[InjectName(p)] == o.r.value
  {
    var name := InjectName(p);
    if Memoised(t.memo, name) then Step(Ok(t.memo[name]), t)
    else if !IsSet(s.injectables, name) && name !in s.functions then
      Step(Err(InvocationException(MissingMessage(p.name, s.ctx.fullRoute))), t)
    else
      var entry := Entry(s.injectables, name);
      match AsCallable(entry, s.functions)
      case None => Step(Ok(entry.v), t.(memo := t.memo[name := entry.v]))
      case Some(h) =>
        if name in t.stack then Step(Err(InvocationException(LoopMessage(s.ctx.fullRoute))), t)
        else Invocation(s, name, h, t)
  }

  /**
   * The call of `name`'s callable `h`: logged and pushed on the call stack,
   * called; on success popped, and the result memoised with the arguments.
   */
  ghost function Invocation(s: Scope, name: string, h: Handler, t: Trail): (o: Step<Value>)
    requires name in s.injectables.Keys + s.functions.Keys && name !in t.stack
    requires AsCallable(Entry(s.injectables, name), s.functions) == Some(h)
    decreases Pending(s, t), 0
    ensures o.r.Ok? ==> o.t.stack == t.stack
    ensures o.r.Err? ==> t.stack <= o.t.stack
    ensures t.log <= o.t.log && |o.t.log| > |t.log| && o.t.log[|t.log|] == name
    ensures o.r.Ok? ==> name in o.t.memo && o.t.memo[name] == o.r.value
    ensures o.r.Ok? ==> name in o.t.calls && h.body(o.t.calls[name]) == o.r
  {
    var c := CallOutcome(s, h, t.(stack := t.stack + {name}, log := t.log + [name]));
    assert (t.log + [name])[|t.log|] == name;
    if c.r.Err? then Step(c.r, c.t) else Step(c.r, Memoise(c.t, name, c.r.value, c.args.value))
  }

  /** A call's bookkeeping goes as `Logged` says. */
  lemma {:induction false} CallLogged(s: Scope, h: Handler, t: Trail)
    decreases Pending(s, t), 3
    ensures var o := CallOutcome(s, h, t); Logged(s.injectables, s.functions, t, o.t, o.r.Ok?)
  {
    var slots := StaticResolver.Slots(h, s.ctx, map[]);
    var o := CallOutcome(s, h, t);
    if AllResolved(h, slots) {
      assert o.t == t;
      LoggedNothing(s.injectables, s.functions, t, o.r.Ok?);
    } else {
      var f := FillOutcome(s, h, slots, slots, 0, t);
      FillLogged(s, h, slots, slots, 0, t);
      assert o.t == f.t && (o.r.Ok? ==> f.r.Ok?);
      LoggedFailed(s.injectables, s.functions, t, f.t, f.r.Ok?);
    }
  }

  /** What a resolution logs still holds when it is counted as failed. */
  lemma LoggedFailed(injectables: map<string, Injectable>, functions: map<string, Handler>, a: Trail, b: Trail, ok: bool)
    requires Logged(injectables, functions, a, b, ok)
    ensures Logged(injectables, functions, a, b, false)
  {
  }

  /** So does `getParameters` from any point of its loop. */
  lemma {:induction false} FillLogged(s: Scope, h: Handler, resolved: map<int, Value>, filled: map<int, Value>, index: nat, t: Trail)
    requires index <= |h.params|
    decreases Pending(s, t), 2, |h.params| - index
    ensures var o := FillOutcome(s, h, resolved, filled, index, t); Logged(s.injectables, s.functions, t, o.t, o.r.Ok?)
  {
    if index == |h.params| {
      LoggedNothing(s.injectables, s.functions, t, true);
    } else if index !in resolved && h.params[index].inject.Some? {
      var v := ResolveOutcome(s, h.params[index], t);
      ResolveLogged(s, h.params[index], t);
      if v.r.Ok? {
        var o := FillOutcome(s, h, resolved, filled[index := v.r.value], index + 1, v.t);
        FillLogged(s, h, resolved, filled[index := v.r.value], index + 1, v.t);
        LoggedJoin(s.injectables, s.functions, t, v.t, o.t, true, o.r.Ok?);
      }
    } else {
      FillLogged(s, h, resolved, filled, index + 1, t);
    }
  }

  /** So does the resolution of one parameter. */
  lemma {:induction false} ResolveLogged(s: Scope, p: ParamDescriptor, t: Trail)
    requires p.inject.Some?
    decreases Pending(s, t), 1
    ensures var o := ResolveOutcome(s, p, t); Logged(s.injectables, s.functions, t, o.t, o.r.Ok?)
  {
    var name := InjectName(p);
    if Memoised(t.memo, name) {
      LoggedNothing(s.injectables, s.functions, t, true);
    } else if !IsSet(s.injectables, name) && name !in s.functions {
      LoggedNothing(s.injectables, s.functions, t, false);
    } else {
      var entry := Entry(s.injectables, name);
      match AsCallable(entry, s.functions)
      case None =>
        LoggedStored(s.injectables, s.functions, t, name, entry.v);
      case Some(h) =>
        if name in t.stack {
          LoggedNothing(s.injectables, s.functions, t, false);
        } else {
          InvocationLogged(s, name, h, t);
        }
    }
  }

  /** And so does the call of one injectable. */
  lemma {:induction false} InvocationLogged(s: Scope, name: string, h: Handler, t: Trail)
    requires name in s.injectables.Keys + s.functions.Keys && name !in t.stack && !Memoised(t.memo, name)
    requires AsCallable(Entry(s.injectables, name), s.functions) == Some(h)
    decreases Pending(s, t), 0
    ensures var o := Invocation(s, name, h, t); Logged(s.injectables, s.functions, t, o.t, o.r.Ok?)
  {
    var t' := t.(stack := t.stack + {name}, log := t.log + [name]);
    var c := CallOutcome(s, h, t');
    CallLogged(s, h, t');
    var v := if c.r.Ok? then c.r.value else VNull;
    var args := if c.args.Some? then c.args.value else [];
    CallRecorded(s.injectables, s.functions, name, h, t, c.t, c.r.Ok?, v, args);
  }

  /** The slots `getParameters` fills from any point of its loop on: `Filled`, up to the last parameter. */
  lemma {:induction false} FillFilled(s: Scope, h: Handler, resolved: map<int, Value>, filled: map<int, Value>, index: nat, t: Trail)
    requires index <= |h.params| && Filled(h, resolved, filled, index, t.memo)
    decreases |h.params| - index
    ensures var o := FillOutcome(s, h, resolved, filled, index, t);
            o.r.Ok? ==> Filled(h, resolved, o.r.value, |h.params|, o.t.memo)
  {
    if index < |h.params| {
      if index !in resolved && h.params[index].inject.Some? {
        var v := ResolveOutcome(s, h.params[index], t);
        if v.r.Ok? {
          ResolveLogged(s, h.params[index], t);
          FilledNext(h, resolved, filled, index, t.memo, v.t.memo, v.r.value);
          FillFilled(s, h, resolved, filled[index := v.r.value], index + 1, v.t);
        }
      } else {
        FilledNext(h, resolved, filled, index, t.memo, t.memo, VNull);
        FillFilled(s, h, resolved, filled, index + 1, t);
      }
    }
  }

  /**
   * A non-null slot filled by `getParameters` holds the value memoised for
   * its injectable before the call, or the value the registry produced for
   * it during the call: a non-callable entry's value, or its callable's
   * result on the recorded arguments.
   */
  lemma FilledSourced(injectables: map<string, Injectable>, functions: map<string, Handler>, h: Handler,
                      resolved: map<int, Value>, filled: map<int, Value>, a: Trail, b: Trail)
    requires Filled(h, resolved, filled, |h.params|, b.memo) && Sourced(injectables, functions, a, b)
    ensures forall i :: i in filled && i !in resolved && filled[i] != VNull ==>
              (Memoised(a.memo, InjectName(h.params[i])) && a.memo[InjectName(h.params[i])] == filled[i]) ||
              Produced(injectables, functions, InjectName(h.params[i]), filled[i], b.calls)
  {
  }

  class InjectParameterResolver {
    /** The global functions, which `is_callable` accepts by name. */
    const functions: map<string, Handler>
    var injectables: map<string, Injectable>
    /** `resolvedInjectables` */
    var memo: map<string, Value>
    var callStack: set<string>
    /** The names whose callables have been called, in order. */
    ghost var invoked: seq<string>
    /** For each name memoised from a call, the arguments that call received. */
    ghost var calls: map<string, seq<Value>>
    /** The names whose callable returned null, with the arguments it returned null for. */
    ghost var nulled: map<string, seq<Value>>

    /** The call bookkeeping as it stands. */
    ghost function State(): Trail
      reads this
    {
      Trail(callStack, memo, calls, nulled, invoked)
    }

    /** Every name that can be resolved by calling something. */
    ghost function Names(): set<string>
      reads this
    {
      injectables.Keys + functions.Keys
    }

    ghost predicate Valid()
      reads this
    {
      callStack <= Names()
    }

    /** The resolver starts with the validator and the serializer registered, nothing memoised. */
    constructor (functions: map<string, Handler>)
      ensures this.functions == functions
      ensures injectables == Builtins
      ensures memo == map[] && callStack == {} && invoked == [] && calls == map[] && nulled == map[]
      ensures Valid()
    {
      this.functions := functions;
      injectables := Builtins;
      memo := map[];
      callStack := {};
      invoked := [];
      calls := map[];
      nulled := map[];
    }

    /** `setInjectables`: incoming entries override registered ones of the same name. */
    method SetInjectables(incoming: map<string, Injectable>)
      requires Valid()
      modifies this
      ensures injectables == old(injectables) + incoming
      ensures memo == old(memo) && callStack == old(callStack) && invoked == old(invoked)
      ensures calls == old(calls) && nulled == old(nulled)
      ensures Valid()
    {
      injectables := injectables + incoming;
    }

    /**
     * Resolves one parameter marked `Inject`: from the memo; else fails for
     * an unknown name; else a non-callable entry is memoised as it is; else
     * a name already being resolved is a loop; else the callable is called
     * with the name on the call stack, and its result memoised. When the
     * call throws, the name stays on the call stack.
     */
    method Resolve(inv: Invoker, p: ParamDescriptor, ctx: Context) returns (r: Result<Value>)
      requires inv.inject == this && Valid() && p.inject.Some?
      modifies this
      decreases Names() - callStack, 1
      ensures Valid() && injectables == old(injectables)
      ensures Step(r, State()) == ResolveOutcome(Scope(injectables, functions, inv.validate, ctx), p, old(State()))
      ensures Logged(injectables, functions, old(State()), State(), r.Ok?)
      ensures var name := InjectName(p);
              Memoised(old(memo), name) ==> r == Ok(old(memo)[name]) && memo == old(memo) && invoked == old(invoked)
      ensures var name := InjectName(p);
              !Memoised(old(memo), name) && !IsSet(injectables, name) && name !in functions ==>
                r == Err(InvocationException(MissingMessage(p.name, ctx.fullRoute))) && memo == old(memo)
      ensures var name := InjectName(p);
              var entry := Entry(injectables, name);
              !Memoised(old(memo), name) && (IsSet(injectables, name) || name in functions) &&
              AsCallable(entry, functions).None? ==>
                r == Ok(entry.v) && memo == old(memo)[name := entry.v] && invoked == old(invoked)
      ensures var name := InjectName(p);
              var entry := Entry(injectables, name);
              !Memoised(old(memo), name) && AsCallable(entry, functions).Some? && name in old(callStack) ==>
                r == Err(InvocationException(LoopMessage(ctx.fullRoute))) && memo == old(memo) && invoked == old(invoked)
      ensures var name := InjectName(p);
              var entry := Entry(injectables, name);
              !Memoised(old(memo), name) && AsCallable(entry, functions).Some? && name !in old(callStack) ==>
                |invoked| > |old(invoked)| && invoked[|old(invoked)|] == name &&
                (r.Ok? ==> name in calls && AsCallable(entry, functions).value.body(calls[name]) == r)
      ensures r.Ok? ==> InjectName(p) in memo && memo[InjectName(p)] == r.value
      ensures r.Ok? && !Memoised(old(memo), InjectName(p)) ==> Produced(injectables, functions, InjectName(p), r.value, calls)
    {
      ResolveLogged(Scope(injectables, functions, inv.validate, ctx), p, State());
      var name := InjectName(p);
      if name in memo && memo[name] != VNull {
        return Ok(memo[name]);
      }
      if !IsSet(injectables, name) && name !in functions {
        return Err(InvocationException(MissingMessage(p.name, ctx.fullRoute)));
      }
      var entry := Entry(injectables, name);
      var callable := AsCallable(entry, functions);
      if callable.None? {
        memo := memo[name := entry.v];
        return Ok(entry.v);
      }
      if name in callStack {
        return Err(InvocationException(LoopMessage(ctx.fullRoute)));
      }
      r := CallInjectable(inv, name, callable.value, ctx);
    }

    /**
     * The callable branch of `Resolve`: calls the injectable's callable with
     * its name on the call stack; on success takes the name off again and
     * memoises the result, recording the arguments the callable received.
     */
    method CallInjectable(inv: Invoker, name: string, h: Handler, ctx: Context) returns (r: Result<Value>)
      requires inv.inject == this && Valid()
      requires name in Names() && name !in callStack && !Memoised(memo, name)
      requires AsCallable(Entry(injectables, name), functions) == Some(h)
      modifies this
      decreases Names() - callStack, 0
      ensures Valid() && injectables == old(injectables)
      ensures Step(r, State()) == Invocation(Scope(injectables, functions, inv.validate, ctx), name, h, old(State()))
      ensures Logged(injectables, functions, old(State()), State(), r.Ok?)
      ensures |invoked| > |old(invoked)| && invoked[|old(invoked)|] == name
      ensures r.Ok? ==> name in memo && memo[name] == r.value
      ensures r.Ok? ==> name in calls && h.body(calls[name]) == r
    {
      InvocationLogged(Scope(injectables, functions, inv.validate, ctx), name, h, State());
      callStack, invoked := callStack + {name}, invoked + [name];
      var result, args := inv.Call(h, ctx);
      if result.Err? {
        return result;
      }
      Record(name, result.value, args.value);
      return result;
    }

    /** A callable's call returned `v` for `args`: off the call stack, memoised, recorded. */
    method Record(name: string, v: Value, ghost args: seq<Value>)
      modifies this
      ensures State() == Memoise(old(State()), name, v, args)
      ensures injectables == old(injectables)
    {
      callStack, memo, calls := callStack - {name}, memo[name := v], calls[name := args];
      nulled := if v == VNull then nulled[name := args] else nulled;
    }

    /**
     * `getParameters`: keeps every slot already resolved and fills exactly
     * the unresolved parameters marked `Inject`, in order, stopping at the
     * first failure. Two parameters naming the same injectable get the same
     * (non-null) value.
     */
    method GetParameters(inv: Invoker, h: Handler, ctx: Context, resolved: map<int, Value>)
      returns (r: Result<map<int, Value>>)
      requires inv.inject == this && Valid()
      modifies this
      decreases Names() - callStack, 2
      ensures Valid() && injectables == old(injectables)
      ensures Step(r, State()) == FillOutcome(Scope(injectables, functions, inv.validate, ctx), h, resolved, resolved, 0, old(State()))
      ensures Logged(injectables, functions, old(State()), State(), r.Ok?)
      ensures r.Ok? ==> callStack == old(callStack)
      ensures r.Err? ==> old(callStack) <= callStack
      ensures r.Ok? ==> Filled(h, resolved, r.value, |h.params|, memo)
      ensures r.Ok? ==> forall i :: i in r.value && i !in resolved && r.value[i] != VNull ==>
                          (Memoised(old(memo), InjectName(h.params[i])) && old(memo)[InjectName(h.params[i])] == r.value[i]) ||
                          Produced(injectables, functions, InjectName(h.params[i]), r.value[i], calls)
    {
      ghost var s := Scope(injectables, functions, inv.validate, ctx);
      ghost var t := State();
      ghost var o := FillOutcome(s, h, resolved, resolved, 0, t);
      FillLogged(s, h, resolved, resolved, 0, t);
      FillFilled(s, h, resolved, resolved, 0, t);
      if o.r.Ok? {
        FilledSourced(injectables, functions, h, resolved, o.r.value, t, o.t);
      }
      var filled := resolved;
      var index := 0;
      while index < |h.params|
        invariant 0 <= index <= |h.params|
        invariant Valid() && injectables == old(injectables) && callStack == old(callStack)
        invariant FillOutcome(s, h, resolved, filled, index, State()) == o
      {
        var p := h.params[index];
        if index !in resolved && p.inject.Some? {
          var value := Resolve(inv, p, ctx);
          if value.Err? {
            return Err(value.error);
          }
          filled := filled[index := value.value];
        }
        index := index + 1;
      }
      return Ok(filled);
    }
  }


  /** Whether every declared parameter has a slot. */
  predicate AllResolved(h: Handler, slots: map<int, Value>)
  {
    forall i :: 0 <= i < |h.params| ==> i in slots
  }

  /** The slots as the positional argument list. */
  function Positional(h: Handler, slots: map<int, Value>): (args: seq<Value>)
    requires AllResolved(h, slots)
    ensures |args| == |h.params| && forall i :: 0 <= i < |h.params| ==> args[i] == slots[i]
  {
    seq(|h.params|, i requires 0 <= i < |h.params| && i in slots => slots[i])
  }

  /**
   * The invoker: the resolver chain static, inject, validation (stopping
   * as soon as every parameter has a slot), then the call.
   */
  class Invoker {
    const inject: InjectParameterResolver
    const validate: ValidationResolver.Validate

    /** A new invoker with its own, fresh injection resolver. */
    constructor (validate: ValidationResolver.Validate, functions: map<string, Handler>)
      ensures fresh(inject) && inject.functions == functions && this.validate == validate
      ensures inject.injectables == Builtins
      ensures inject.memo == map[] && inject.callStack == {} && inject.invoked == [] && inject.calls == map[] && inject.nulled == map[]
      ensures inject.Valid()
    {
      this.validate := validate;
      inject := new InjectParameterResolver(functions);
    }

    /**
     * `call`: resolves the arguments and calls the callable with them; a
     * stage that throws ends the call with what it threw. `args` is the
     * argument list the callable received, if it was called.
     */
    method Call(h: Handler, ctx: Context) returns (r: Result<Value>, ghost args: Option<seq<Value>>)
      requires inject.Valid()
      modifies inject
      decreases inject.Names() - inject.callStack, 3
      ensures inject.Valid() && inject.injectables == old(inject.injectables)
      ensures Called(r, args, inject.State()) == CallOutcome(Scope(inject.injectables, inject.functions, validate, ctx), h, old(inject.State()))
      ensures Logged(inject.injectables, inject.functions, old(inject.State()), inject.State(), r.Ok?)
      ensures args.Some? ==> |args.value| == |h.params| && r == h.body(args.value)
      ensures args.None? ==> r.Err?
    {
      ghost var s := Scope(inject.injectables, inject.functions, validate, ctx);
      ghost var t := inject.State();
      CallLogged(s, h, t);
      var slots := StaticResolver.GetParameters(h, ctx, map[]);
      var positional: seq<Value>;
      if AllResolved(h, slots) {
        positional := Positional(h, slots);
      } else {
        var injected := inject.GetParameters(this, h, ctx, slots);
        if injected.Err? {
          return Err(injected.error), None;
        }
        slots := injected.value;
        if AllResolved(h, slots) {
          positional := Positional(h, slots);
        } else {
          var validated := ValidationResolver.GetParameters(validate, h, ctx, slots);
          if validated.Err? {
            return Err(validated.error), None;
          }
          positional := validated.value;
        }
      }
      r := h.body(positional);
      args := Some(positional);
    }
  }

  /** A parameter marked `Inject`, with the attribute's name if it gives one. */
  function InjectParam(name: string, attr: Option<string>): ParamDescriptor
  {
    ParamDescriptor(name, Named(NamedType("string", true)), [], Some(attr), None, None)
  }

  /** `"$a $b"` for two string arguments; anything else is a `TypeError` under strict types. */
  function JoinNames(args: seq<Value>): Result<Value>
  {
    if |args| == 2 && args[0].VStr? && args[1].VStr? then Ok(VStr(args[0].s + " " + args[1].s))
    else Err(Fatal("TypeError"))
  }

  /** `"$b $a"` for two string arguments, the reverse order of `JoinNames`. */
  function JoinNamesReversed(args: seq<Value>): Result<Value>
  {
    if |args| == 2 && args[0].VStr? && args[1].VStr? then Ok(VStr(args[1].s + " " + args[0].s))
    else Err(Fatal("TypeError"))
  }

  /** The injectables of the "resolves injected dependencies once" scenario. */
  const GetFirstName: Handler := Handler([], None, (args: seq<Value>) => Ok(VStr("Andre")))
  const GetLastName: Handler := Handler([], None, (args: seq<Value>) => Ok(VStr("Gil")))
  const User: Handler := Handler([InjectParam("getFirstName", None), InjectParam("lastName", Some("getLastName"))], None, JoinNames)
  const Shared: map<string, Injectable> :=
    map["getFirstName" := Callable(GetFirstName), "getLastName" := Callable(GetLastName), "user" := Callable(User)]
  /** The endpoint's handler: injects `user`, and `getFirstName` as `firstName`, and returns "$firstName $user". */
  const Greeting: Handler := Handler([InjectParam("user", None), InjectParam("firstName", Some("getFirstName"))], None, JoinNamesReversed)

  /**
   * Injected dependencies are resolved once: the handler injects `user`
   * and `getFirstName`, and `user` itself injects `getFirstName` and
   * `getLastName`. The call returns "Andre Andre Gil", each of the three
   * callables is called exactly once (`getFirstName` the second time comes
   * from the memo), and their results are memoised.
   */
  lemma SharedInjectablesOutcome(s: Scope, t: Trail)
    requires s.injectables == Builtins + Shared && s.functions == map[]
    requires t == Trail({}, map[], map[], map[], [])
    ensures var o := CallOutcome(s, Greeting, t);
            o.r == Ok(VStr("Andre Andre Gil")) && o.args == Some([VStr("Andre Gil"), VStr("Andre")]) &&
            o.t.log == ["user", "getFirstName", "getLastName"] &&
            o.t.memo == map["getFirstName" := VStr("Andre"), "getLastName" := VStr("Gil"), "user" := VStr("Andre Gil")] &&
            o.t.stack == {} && o.t.nulled == map[]
  {
    ScenarioShapes();
    ScenarioEntries(s.injectables);
    Joined();
    var c := Called(Ok(VStr("Andre Gil")), Some([VStr("Andre"), VStr("Gil")]), UserDone());
    UserOutcome(s, Pushed(t, "user"));
    CalledThenMemoised(s, Greeting, t, User, c);
  }

  /** The bookkeeping once `user`'s own injections have been called: `getFirstName`, then `getLastName`. */
  function UserDone(): Trail
  {
    Trail({"user"}, map["getFirstName" := VStr("Andre"), "getLastName" := VStr("Gil")],
          map["getFirstName" := [], "getLastName" := []], map[], ["user", "getFirstName", "getLastName"])
  }

  /** `user`'s call in the scenario: it injects `getFirstName` and `getLastName`, calls each once, and joins them. */
  lemma UserOutcome(s: Scope, t1: Trail)
    requires s.injectables == Builtins + Shared && s.functions == map[]
    requires t1 == Trail({"user"}, map[], map[], map[], ["user"])
    ensures CallOutcome(s, User, t1) == Called(Ok(VStr("Andre Gil")), Some([VStr("Andre"), VStr("Gil")]), UserDone())
  {
    ScenarioShapes();
    ScenarioEntries(s.injectables);
    Joined();
    TwoFresh(s, User, t1, GetFirstName, GetLastName);
  }

  /** The bookkeeping as the call of `name`'s callable starts: pushed on the call stack and logged. */
  function Pushed(t: Trail, name: string): Trail
  {
    t.(stack := t.stack + {name}, log := t.log + [name])
  }

  /** A callable's call with outcome `c`: the invocation ends as `c` says, memoised when it succeeded. */
  lemma InvocationReturned(s: Scope, name: string, h: Handler, t: Trail, c: Called)
    requires name in s.injectables.Keys + s.functions.Keys && name !in t.stack
    requires AsCallable(Entry(s.injectables, name), s.functions) == Some(h)
    requires CallOutcome(s, h, Pushed(t, name)) == c && c.r.Ok? && c.args.Some?
    ensures Invocation(s, name, h, t) == Step(c.r, Memoise(c.t, name, c.r.value, c.args.value))
  {
  }

  /** A callable without parameters is called on no arguments and memoised, nothing else happening. */
  lemma NoParamsInvocation(s: Scope, name: string, h: Handler, t: Trail)
    requires name in s.injectables && s.injectables[name] == Callable(h) && name !in t.stack
    requires h.params == [] && h.body([]).Ok?
    ensures Invocation(s, name, h, t) == Step(h.body([]), Memoise(Pushed(t, name), name, h.body([]).value, []))
  {
    var slots := StaticResolver.Slots(h, s.ctx, map[]);
    assert AllResolved(h, slots);
    assert Positional(h, slots) == [];
    InvocationReturned(s, name, h, t, Called(h.body([]), Some([]), Pushed(t, name)));
  }

  /** A parameter naming a registered callable not yet memoised, nor on the call stack, calls it. */
  lemma ResolveCallable(s: Scope, p: ParamDescriptor, h: Handler, t: Trail)
    requires p.inject.Some? && InjectName(p) in s.injectables && s.injectables[InjectName(p)] == Callable(h)
    requires !Memoised(t.memo, InjectName(p)) && InjectName(p) !in t.stack
    ensures ResolveOutcome(s, p, t) == Invocation(s, InjectName(p), h, t)
  {
  }

  /** A parameter naming a memoised value gets it, nothing else happening. */
  lemma ResolveMemoised(s: Scope, p: ParamDescriptor, t: Trail)
    requires p.inject.Some? && Memoised(t.memo, InjectName(p))
    ensures ResolveOutcome(s, p, t) == Step(Ok(t.memo[InjectName(p)]), t)
  {
  }

  /** Two parameters, both marked `Inject`, neither aliased nor named like an object the static stage provides. */
  predicate TwoByName(h: Handler)
  {
    |h.params| == 2 && h.aliasGenerator.None? &&
    forall i :: 0 <= i < 2 ==> h.params[i].inject.Some? && h.params[i].alias.None? &&
                               !StaticResolver.IsWellKnown(h.params[i].name)
  }

  /**
   * A callable with two parameters, both injected under their own names:
   * the static stage fills neither, the inject stage resolves them in
   * order, and the callable is called on the two values.
   */
  lemma TwoInjected(s: Scope, h: Handler, t: Trail, v0: Value, t1: Trail, v1: Value, t2: Trail)
    requires TwoByName(h)
    requires ResolveOutcome(s, h.params[0], t) == Step(Ok(v0), t1)
    requires ResolveOutcome(s, h.params[1], t1) == Step(Ok(v1), t2)
    ensures CallOutcome(s, h, t) == Called(h.body([v0, v1]), Some([v0, v1]), t2)
  {
    var slots := StaticResolver.Slots(h, s.ctx, map[]);
    forall i | 0 <= i < 2
      ensures i !in slots
    {
      assert StaticResolver.EffectiveName(h, i) == h.params[i].name;
    }
    assert slots == map[];
    assert 0 !in slots;
    var filled := map[0 := v0, 1 := v1];
    assert FillOutcome(s, h, slots, filled, 2, t2) == Step(Ok(filled), t2);
    assert FillOutcome(s, h, slots, map[0 := v0], 1, t1) == Step(Ok(filled), t2);
    assert FillOutcome(s, h, slots, slots, 0, t) == Step(Ok(filled), t2);
    assert Positional(h, filled) == [v0, v1];
  }

  /** The scenario's callables: their shapes and the names their parameters inject. */
  lemma ScenarioShapes()
    ensures TwoByName(User) && TwoByName(Greeting)
    ensures InjectName(User.params[0]) == "getFirstName" && InjectName(User.params[1]) == "getLastName"
    ensures InjectName(Greeting.params[0]) == "user" && InjectName(Greeting.params[1]) == "getFirstName"
    ensures GetFirstName.params == [] && GetFirstName.body([]) == Ok(VStr("Andre"))
    ensures GetLastName.params == [] && GetLastName.body([]) == Ok(VStr("Gil"))
  {
  }

  /** The scenario's registry holds the three callables under their names. */
  lemma ScenarioEntries(injectables: map<string, Injectable>)
    requires injectables == Builtins + Shared
    ensures "getFirstName" in injectables && injectables["getFirstName"] == Callable(GetFirstName)
    ensures "getLastName" in injectables && injectables["getLastName"] == Callable(GetLastName)
    ensures "user" in injectables && injectables["user"] == Callable(User)
  {
  }

  /** What `user` and the handler return on the names the scenario resolves. */
  lemma Joined()
    ensures User.body([VStr("Andre"), VStr("Gil")]) == Ok(VStr("Andre Gil"))
    ensures Greeting.body([VStr("Andre Gil"), VStr("Andre")]) == Ok(VStr("Andre Andre Gil"))
  {
    assert "Andre" + " " + "Gil" == "Andre Gil";
    assert "Andre" + " " + "Andre Gil" == "Andre Andre Gil";
  }

  /**
   * A callable whose two parameters inject two distinct callables without
   * parameters, neither memoised nor on the call stack: each is called once,
   * in order, and memoised, and the callable is called on their results.
   */
  lemma TwoFresh(s: Scope, h: Handler, t: Trail, h0: Handler, h1: Handler)
    requires TwoByName(h)
    requires var n0, n1 := InjectName(h.params[0]), InjectName(h.params[1]);
             n0 != n1 && n0 in s.injectables && s.injectables[n0] == Callable(h0) &&
             n1 in s.injectables && s.injectables[n1] == Callable(h1) &&
             n0 !in t.stack && n1 !in t.stack && !Memoised(t.memo, n0) && !Memoised(t.memo, n1)
    requires h0.params == [] && h0.body([]).Ok? && h1.params == [] && h1.body([]).Ok?
    ensures var n0, n1 := InjectName(h.params[0]), InjectName(h.params[1]);
            var v0, v1 := h0.body([]).value, h1.body([]).value;
            var t2 := Memoise(Pushed(Memoise(Pushed(t, n0), n0, v0, []), n1), n1, v1, []);
            CallOutcome(s, h, t) == Called(h.body([v0, v1]), Some([v0, v1]), t2)
  {
    var n0, n1 := InjectName(h.params[0]), InjectName(h.params[1]);
    var v0, v1 := h0.body([]).value, h1.body([]).value;
    var t1 := Memoise(Pushed(t, n0), n0, v0, []);
    NoParamsInvocation(s, n0, h0, t);
    ResolveCallable(s, h.params[0], h0, t);
    NoParamsInvocation(s, n1, h1, t1);
    ResolveCallable(s, h.params[1], h1, t1);
    TwoInjected(s, h, t, v0, t1, v1, Memoise(Pushed(t1, n1), n1, v1, []));
  }

  /**
   * A callable whose first parameter injects a callable not memoised nor on
   * the call stack, which returns `c`, and whose second parameter injects a
   * name memoised by then: called on the first result and the memoised value.
   */
  lemma CalledThenMemoised(s: Scope, h: Handler, t: Trail, h0: Handler, c: Called)
    requires TwoByName(h)
    requires var n0 := InjectName(h.params[0]);
             n0 in s.injectables && s.injectables[n0] == Callable(h0) && n0 !in t.stack && !Memoised(t.memo, n0)
    requires CallOutcome(s, h0, Pushed(t, InjectName(h.params[0]))) == c && c.r.Ok? && c.args.Some?
    requires Memoised(Memoise(c.t, InjectName(h.params[0]), c.r.value, c.args.value).memo, InjectName(h.params[1]))
    ensures var t1 := Memoise(c.t, InjectName(h.params[0]), c.r.value, c.args.value);
            var v1 := t1.memo[InjectName(h.params[1])];
            CallOutcome(s, h, t) == Called(h.body([c.r.value, v1]), Some([c.r.value, v1]), t1)
  {
    var n0 := InjectName(h.params[0]);
    var t1 := Memoise(c.t, n0, c.r.value, c.args.value);
    InvocationReturned(s, n0, h0, t, c);
    ResolveCallable(s, h.params[0], h0, t);
    ResolveMemoised(s, h.params[1], t1);
    TwoInjected(s, h, t, c.r.value, t1, t1.memo[InjectName(h.params[1])], t1);
  }

  /** The same scenario run on a fresh invoker, as the endpoint's callback runs it. */
  method SharedInjectablesRunOnce(validate: ValidationResolver.Validate, ctx: Context)
    returns (r: Result<Value>, inv: Invoker, ghost args: Option<seq<Value>>)
    ensures r == Ok(VStr("Andre Andre Gil"))
    ensures args == Some([VStr("Andre Gil"), VStr("Andre")])
    ensures inv.inject.invoked == ["user", "getFirstName", "getLastName"]
    ensures inv.inject.memo == map["getFirstName" := VStr("Andre"), "getLastName" := VStr("Gil"), "user" := VStr("Andre Gil")]
    ensures inv.inject.callStack == {}
  {
    inv := new Invoker(validate, map[]);
    inv.inject.SetInjectables(Shared);
    SharedInjectablesOutcome(Scope(inv.inject.injectables, inv.inject.functions, validate, ctx), inv.inject.State());
    r, args := inv.Call(Greeting, ctx);
  }
}
