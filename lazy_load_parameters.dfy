/**
 * The lazily loaded parameter view handed to the validator: an array
 * addressable by parameter index or by parameter name. An index access
 * remembers which declared parameter is being looked at; a name access
 * then looks that parameter's value up in the request, according to its
 * source attributes and its type, and stores what it finds.
 */
module LazyLoad {
  import opened Values
  import PhpStrings

  /** A key of the view: an integer (a parameter position) or a non-numeric string (a parameter name). */
  datatype Key = Index(i: int) | Name(n: string)

  /** The view's stored entries. */
  type Storage = map<Key, Value>

  /** The answer of a name lookup and the stored entries after it. */
  datatype Lookup = Lookup(found: bool, storage: Storage)

  /** The text of the `TypeError` raised when no declared parameter sits at the tracked index. */
  const NoParameterMessage: string := "Argument #1 ($parameter) must be of type ReflectionParameter, null given"

  /** The view over the slots earlier resolver stages filled. */
  function Seed(resolved: map<int, Value>): (st: Storage)
    ensures forall i :: Index(i) in st <==> i in resolved
    ensures forall i :: i in resolved ==> st[Index(i)] == resolved[i]
    ensures forall k :: k in st ==> k.Index?
  {
    map k | k in (set i | i in resolved :: Index(i)) :: resolved[k.i]
  }

  /** The map one `From` attribute reads from the request. */
  function SourceParams(req: Request, s: Source): Params
  {
    match s
    case Url => req.url
    case Query => req.query
    case Json => if req.json.Some? then req.json.value else map[]
    case Body => req.body
    case Header => req.headers
    case Cookie => req.cookies
    case Files => req.files
    case Any => req.params
  }

  /**
   * The maps of the given sources merged as `getFromParams` merges them:
   * each source's map goes under the maps merged so far, so for a key
   * several sources hold, the source declared first wins.
   */
  function MergedSources(req: Request, srcs: seq<Source>): Params
  {
    if |srcs| == 0 then map[]
    else SourceParams(req, srcs[|srcs| - 1]) + MergedSources(req, srcs[..|srcs| - 1])
  }

  /** `getFromParams`: null without a source attribute, otherwise the merged source maps. */
  function FromParams(req: Request, p: ParamDescriptor): (r: Option<Params>)
    ensures r.None? <==> |p.sources| == 0
  {
    if |p.sources| == 0 then None else Some(MergedSources(req, p.sources))
  }

  /** `getUrlOrQueryParams`: the URL captures when they hold the key, else the query when it does, else both. */
  function UrlOrQueryParams(req: Request, key: string): Params
  {
    if key in req.url then req.url
    else if key in req.query then req.query
    else req.query + req.url
  }

  /** `getJsonOrBodyParams`: the JSON body for a JSON request, else the form body; a missing body reads as empty. */
  function JsonOrBodyParams(req: Request): Params
  {
    if req.isJson then (if req.json.Some? then req.json.value else map[]) else req.body
  }

  /** `isToFindParamByKey`: an untyped parameter, or one with a single builtin type. */
  predicate IsToFindParamByKey(p: ParamDescriptor)
  {
    p.ty.Untyped? || (p.ty.Named? && p.ty.t.builtin)
  }

  /** `$parameter->getType()` where it is a single named type. */
  function TypeHint(p: ParamDescriptor): Option<NamedType>
  {
    if p.ty.Named? then Some(p.ty.t) else None
  }

  /** `(string) $v` for a value that is neither an array nor an object. */
  function ScalarString(v: Value): string
    requires !IsArray(v) && !IsObject(v)
  {
    match v
    case VNull => ""
    case VBool(b) => if b then "1" else ""
    case VInt(i) => PhpStrings.IntToString(i)
    case VStr(s) => s
  }

  /** The strings of an `explode` result as PHP values. */
  function Pieces(parts: seq<string>): (r: seq<Value>)
    ensures |r| == |parts| && forall k :: 0 <= k < |r| ==> r[k] == VStr(parts[k])
  {
    seq(|parts|, k requires 0 <= k < |parts| => VStr(parts[k]))
  }

  /** Whether a builtin type hint asks for an array: `array` or `object`. */
  predicate WantsArray(ty: Option<NamedType>)
  {
    ty.Some? && ty.value.builtin && (ty.value.name == "array" || ty.value.name == "object")
  }

  /** `parseBuiltinParamValue`: a scalar given for an `array`/`object` parameter is split on commas. */
  function ParseBuiltinParamValue(v: Value, ty: Option<NamedType>): Value
  {
    if !WantsArray(ty) || IsArray(v) || IsObject(v) then v
    else VList(Pieces(PhpStrings.Split(ScalarString(v), ',')))
  }

  /** `findParamByKey`: looks the key up in the source maps, or the URL/query maps, and stores the parsed value. */
  function ByKeySpec(req: Request, from: Option<Params>, key: string, ty: Option<NamedType>, st: Storage): Lookup
  {
    var all := if from.Some? then from.value else UrlOrQueryParams(req, key);
    if key !in all then Lookup(false, st)
    else Lookup(true, st[Name(key) := ParseBuiltinParamValue(all[key], ty)])
  }

  /** The whole map `findParam` stores: the source maps, or the JSON/form body. */
  function WholeMap(req: Request, from: Option<Params>): Params
  {
    if from.Some? then from.value else JsonOrBodyParams(req)
  }

  /** `findParam`: stores the whole map under the key and reports success. */
  function WholeSpec(req: Request, from: Option<Params>, key: string, st: Storage): Lookup
  {
    Lookup(true, st[Name(key) := VDict(WholeMap(req, from))])
  }

  /**
   * The loop over a union's member types: a builtin member that finds the
   * key ends the search; a class member stores the whole map and the
   * search goes on; at the end the answer is whether the key is stored.
   */
  function UnionSpec(req: Request, from: Option<Params>, key: string, members: seq<NamedType>, st: Storage): Lookup
  {
    if |members| == 0 then Lookup(Name(key) in st, st)
    else if members[0].builtin then
      var l := ByKeySpec(req, from, key, Some(members[0]), st);
      if l.found then l else UnionSpec(req, from, key, members[1..], l.storage)
    else UnionSpec(req, from, key, members[1..], WholeSpec(req, from, key, st).storage)
  }

  /** `find`: a stored key is found at once; otherwise the parameter at the tracked index decides how to look. */
  function FindSpec(params: seq<ParamDescriptor>, current: Option<int>, req: Request, key: string, st: Storage): Result<Lookup>
  {
    if Name(key) in st then Ok(Lookup(true, st))
    else if current.None? || !(0 <= current.value < |params|) then Err(Fatal(NoParameterMessage))
    else
      var p := params[current.value];
      var from := FromParams(req, p);
      if IsToFindParamByKey(p) then Ok(ByKeySpec(req, from, key, TypeHint(p), st))
      else if !p.ty.Union? then Ok(WholeSpec(req, from, key, st))
      else Ok(UnionSpec(req, from, key, p.ty.members, st))
  }

  /** A stored entry, or null for a missing one, as `ArrayObject::offsetGet` reads it. */
  function Get(st: Storage, k: Key): Value
  {
    if k in st then st[k] else VNull
  }

  class LazyLoadParameters {
    const params: seq<ParamDescriptor>
    const request: Request
    var currentIndex: Option<int>
    var storage: Storage

    /** The view starts at no index, holding the slots already resolved. */
    constructor (params: seq<ParamDescriptor>, request: Request, resolved: map<int, Value>)
      ensures this.params == params && this.request == request
      ensures currentIndex == None && storage == Seed(resolved)
    {
      this.params := params;
      this.request := request;
      currentIndex := None;
      storage := Seed(resolved);
    }

    /** `offsetExists`: an index is tracked and checked as stored; a name is looked for. */
    method OffsetExists(key: Key) returns (r: Result<bool>)
      modifies this
      ensures key.Index? ==> currentIndex == Some(key.i) && storage == old(storage) && r == Ok(key in storage)
      ensures key.Name? ==> currentIndex == old(currentIndex)
      ensures key.Name? ==> FindDone(FindSpec(params, old(currentIndex), request, key.n, old(storage)), r, old(storage), storage)
    {
      if key.Index? {
        currentIndex := Some(key.i);
        r := Ok(key in storage);
      } else {
        r := Find(key.n);
      }
    }

    /** `offsetGet`: an index is tracked and read; a name is looked for, then read (null when still missing). */
    method OffsetGet(key: Key) returns (r: Result<Value>)
      modifies this
      ensures key.Index? ==> currentIndex == Some(key.i) && storage == old(storage) && r == Ok(Get(storage, key))
      ensures key.Name? ==> currentIndex == old(currentIndex)
      ensures key.Name? ==> var spec := FindSpec(params, old(currentIndex), request, key.n, old(storage));
        (spec.Ok? ==> storage == spec.value.storage && r == Ok(Get(storage, key))) &&
        (spec.Err? ==> storage == old(storage) && r == Err(spec.error))
    {
      if key.Index? {
        currentIndex := Some(key.i);
        r := Ok(Get(storage, key));
      } else {
        var found := Find(key.n);
        if found.Err? {
          r := Err(found.error);
        } else {
          r := Ok(Get(storage, key));
        }
      }
    }

    /** `find` */
    method Find(key: string) returns (r: Result<bool>)
      modifies this`storage
      ensures FindDone(FindSpec(params, currentIndex, request, key, old(storage)), r, old(storage), storage)
    {
      if Name(key) in storage {
        return Ok(true);
      }
      if currentIndex.None? || !(0 <= currentIndex.value < |params|) {
        return Err(Fatal(NoParameterMessage));
      }
      var p := params[currentIndex.value];
      var from := GetFromParams(p);
      if IsToFindParamByKey(p) {
        var found := FindParamByKey(from, key, TypeHint(p));
        return Ok(found);
      }
      if !p.ty.Union? {
        var found := FindParam(from, key);
        return Ok(found);
      }
      var members := p.ty.members;
      var i := 0;
      while i < |members|
        invariant 0 <= i <= |members|
        invariant UnionSpec(request, from, key, members[i..], storage) == UnionSpec(request, from, key, members, old(storage))
      {
        assert members[i..][1..] == members[i + 1..];
        if members[i].builtin {
          var found := FindParamByKey(from, key, Some(members[i]));
          if found {
            return Ok(true);
          }
        } else {
          var _ := FindParam(from, key);
        }
        i := i + 1;
      }
      return Ok(Name(key) in storage);
    }

    /** `findParamByKey` */
    method FindParamByKey(from: Option<Params>, key: string, ty: Option<NamedType>) returns (found: bool)
      modifies this`storage
      ensures Lookup(found, storage) == ByKeySpec(request, from, key, ty, old(storage))
    {
      var all := if from.Some? then from.value else UrlOrQueryParams(request, key);
      if key !in all {
        return false;
      }
      storage := storage[Name(key) := ParseBuiltinParamValue(all[key], ty)];
      return true;
    }

    /** `findParam` */
    method FindParam(from: Option<Params>, key: string) returns (found: bool)
      modifies this`storage
      ensures Lookup(found, storage) == WholeSpec(request, from, key, old(storage))
    {
      var all := if from.Some? then from.value else JsonOrBodyParams(request);
      storage := storage[Name(key) := VDict(all)];
      return true;
    }

    /** `getFromParams`: merges the maps of the parameter's sources, in declaration order. */
    method GetFromParams(p: ParamDescriptor) returns (r: Option<Params>)
      ensures r == FromParams(request, p)
    {
      if |p.sources| == 0 {
        return None;
      }
      var all: Params := map[];
      var i := 0;
      while i < |p.sources|
        invariant 0 <= i <= |p.sources|
        invariant all == MergedSources(request, p.sources[..i])
      {
        assert p.sources[..i + 1][..i] == p.sources[..i];
        var fromParams := SourceParams(request, p.sources[i]);
        all := fromParams + all;
        i := i + 1;
      }
      assert p.sources[..i] == p.sources;
      return Some(all);
    }
  }

  /** How a name lookup ended: as its specification says, with nothing stored when it throws. */
  predicate FindDone(spec: Result<Lookup>, r: Result<bool>, before: Storage, after: Storage)
  {
    (spec.Ok? ==> r == Ok(spec.value.found) && after == spec.value.storage) &&
    (spec.Err? ==> r == Err(spec.error) && after == before)
  }

  /** Whether a union has a class (non-builtin) member. */
  predicate HasClassMember(members: seq<NamedType>)
  {
    |members| > 0 && (!members[0].builtin || HasClassMember(members[1..]))
  }

  /** The position of a union's first builtin member; the length when it has none. */
  function FirstBuiltin(members: seq<NamedType>): (j: nat)
    ensures j <= |members|
    ensures j < |members| ==> members[j].builtin
    ensures forall k :: 0 <= k < j ==> !members[k].builtin
  {
    if |members| == 0 then 0
    else if members[0].builtin then 0
    else 1 + FirstBuiltin(members[1..])
  }

  /**
   * What the union search ends with: when the key is in the map searched
   * by key and some member is builtin, the first builtin member's parsed
   * value; otherwise the whole map if some member is a class; otherwise
   * nothing new, and the answer is whether the key was already stored.
   */
  lemma {:induction false} UnionOutcome(req: Request, from: Option<Params>, key: string, members: seq<NamedType>, st: Storage)
    ensures UnionSpec(req, from, key, members, st) == UnionResult(req, from, key, members, st)
    decreases |members|, 1
  {
    if |members| > 0 {
      if members[0].builtin {
        BuiltinFirstOutcome(req, from, key, members, st);
      } else {
        ClassFirstOutcome(req, from, key, members, st);
      }
    }
  }

  /** What the union search ends with, stated outright (see `UnionOutcome`). */
  function UnionResult(req: Request, from: Option<Params>, key: string, members: seq<NamedType>, st: Storage): Lookup
  {
    var all := if from.Some? then from.value else UrlOrQueryParams(req, key);
    var j := FirstBuiltin(members);
    if key in all && j < |members| then Lookup(true, st[Name(key) := ParseBuiltinParamValue(all[key], Some(members[j]))])
    else if HasClassMember(members) then Lookup(true, st[Name(key) := VDict(WholeMap(req, from))])
    else Lookup(Name(key) in st, st)
  }

  /** `UnionOutcome` for a union whose first member is builtin. */
  lemma {:induction false} BuiltinFirstOutcome(req: Request, from: Option<Params>, key: string, members: seq<NamedType>, st: Storage)
    requires |members| > 0 && members[0].builtin
    ensures UnionSpec(req, from, key, members, st) == UnionResult(req, from, key, members, st)
    decreases |members|, 0
  {
    var all := if from.Some? then from.value else UrlOrQueryParams(req, key);
    assert FirstBuiltin(members) == 0;
    if key !in all {
      UnionOutcome(req, from, key, members[1..], st);
      assert HasClassMember(members) == HasClassMember(members[1..]);
    }
  }

  /** `UnionOutcome` for a union whose first member is a class. */
  lemma {:induction false} ClassFirstOutcome(req: Request, from: Option<Params>, key: string, members: seq<NamedType>, st: Storage)
    requires |members| > 0 && !members[0].builtin
    ensures UnionSpec(req, from, key, members, st) == UnionResult(req, from, key, members, st)
    decreases |members|, 0
  {
    var all := if from.Some? then from.value else UrlOrQueryParams(req, key);
    var st1 := WholeSpec(req, from, key, st).storage;
    assert UnionSpec(req, from, key, members, st) == UnionSpec(req, from, key, members[1..], st1);
    UnionOutcome(req, from, key, members[1..], st1);
    var j := FirstBuiltin(members[1..]);
    assert FirstBuiltin(members) == 1 + j && HasClassMember(members);
    if key in all && j < |members[1..]| {
      assert members[1..][j] == members[1 + j];
      assert st1[Name(key) := ParseBuiltinParamValue(all[key], Some(members[1 + j]))]
          == st[Name(key) := ParseBuiltinParamValue(all[key], Some(members[1 + j]))];
    } else {
      assert st1[Name(key) := VDict(WholeMap(req, from))] == st1;
    }
  }

  /**
   * A name lookup stores at most one entry, under the key looked for, and
   * answers true exactly when the key ends up stored.
   */
  lemma FindTouchesOnlyKey(params: seq<ParamDescriptor>, current: Option<int>, req: Request, key: string, st: Storage)
    ensures var r := FindSpec(params, current, req, key, st);
            r.Ok? ==> (r.value.found <==> Name(key) in r.value.storage) &&
                      r.value.storage - {Name(key)} == st - {Name(key)}
  {
    if Name(key) !in st && current.Some? && 0 <= current.value < |params| {
      var p := params[current.value];
      if p.ty.Union? && !IsToFindParamByKey(p) {
        UnionOutcome(req, FromParams(req, p), key, p.ty.members, st);
      }
    }
  }

  /** Once a name lookup has found its key, every later lookup of it is answered from the stored entries. */
  lemma FoundIsCached(params: seq<ParamDescriptor>, current: Option<int>, later: Option<int>, req: Request, key: string, st: Storage)
    requires FindSpec(params, current, req, key, st).Ok?
    requires FindSpec(params, current, req, key, st).value.found
    ensures var st1 := FindSpec(params, current, req, key, st).value.storage;
            FindSpec(params, later, req, key, st1) == Ok(Lookup(true, st1))
  {
    FindTouchesOnlyKey(params, current, req, key, st);
  }

  /**
   * An untyped or single-builtin parameter without source attributes is
   * looked up in the URL captures first, then in the query; a key in
   * neither is not found and nothing is stored.
   */
  lemma UrlBeforeQuery(params: seq<ParamDescriptor>, i: int, req: Request, key: string, st: Storage)
    requires 0 <= i < |params| && |params[i].sources| == 0 && IsToFindParamByKey(params[i])
    requires Name(key) !in st
    ensures key in req.url ==>
      FindSpec(params, Some(i), req, key, st) == Ok(Lookup(true, st[Name(key) := ParseBuiltinParamValue(req.url[key], TypeHint(params[i]))]))
    ensures key !in req.url && key in req.query ==>
      FindSpec(params, Some(i), req, key, st) == Ok(Lookup(true, st[Name(key) := ParseBuiltinParamValue(req.query[key], TypeHint(params[i]))]))
    ensures key !in req.url && key !in req.query ==>
      FindSpec(params, Some(i), req, key, st) == Ok(Lookup(false, st))
  {
  }

  /**
   * A parameter with a single class type is always found: the whole map is
   * stored, the merged sources when it declares any, else the JSON or form body.
   */
  lemma ClassTypedTakesWholeMap(params: seq<ParamDescriptor>, i: int, req: Request, key: string, st: Storage)
    requires 0 <= i < |params| && params[i].ty.Named? && !params[i].ty.t.builtin
    requires Name(key) !in st
    ensures var whole := if |params[i].sources| > 0 then MergedSources(req, params[i].sources) else JsonOrBodyParams(req);
            FindSpec(params, Some(i), req, key, st) == Ok(Lookup(true, st[Name(key) := VDict(whole)]))
  {
  }

  /** A key no stored entry and no tracked parameter can answer makes the lookup throw. */
  lemma UntrackedIndexThrows(params: seq<ParamDescriptor>, current: Option<int>, req: Request, key: string, st: Storage)
    requires Name(key) !in st
    requires current.None? || current.value < 0 || current.value >= |params|
    ensures FindSpec(params, current, req, key, st).Err?
  {
  }

  /** A key the merged sources hold comes from some declared source, and every source's keys are there. */
  lemma {:induction false} MergedKeys(req: Request, srcs: seq<Source>, key: string)
    ensures key in MergedSources(req, srcs) <==> exists j :: 0 <= j < |srcs| && key in SourceParams(req, srcs[j])
  {
    if |srcs| > 0 {
      var init := srcs[..|srcs| - 1];
      MergedKeys(req, init, key);
      if key in MergedSources(req, srcs) && key !in SourceParams(req, srcs[|srcs| - 1]) {
        var j :| 0 <= j < |init| && key in SourceParams(req, init[j]);
        assert srcs[j] == init[j];
      }
      if exists j :: 0 <= j < |srcs| && key in SourceParams(req, srcs[j]) {
        var j :| 0 <= j < |srcs| && key in SourceParams(req, srcs[j]);
        if j < |srcs| - 1 {
          assert init[j] == srcs[j];
        }
      }
    }
  }

  /** For a key several sources hold, the value comes from the source declared first. */
  lemma {:induction false} EarliestSourceWins(req: Request, srcs: seq<Source>, key: string, j: int)
    requires 0 <= j < |srcs| && key in SourceParams(req, srcs[j])
    requires forall l :: 0 <= l < j ==> key !in SourceParams(req, srcs[l])
    ensures key in MergedSources(req, srcs)
    ensures MergedSources(req, srcs)[key] == SourceParams(req, srcs[j])[key]
  {
    var init := srcs[..|srcs| - 1];
    if j < |srcs| - 1 {
      assert forall l :: 0 <= l < j ==> init[l] == srcs[l];
      EarliestSourceWins(req, init, key, j);
    } else {
      MergedKeys(req, init, key);
      assert forall l :: 0 <= l < |init| ==> init[l] == srcs[l];
    }
  }

  /** A comma-joined list given for an `array`/`object` parameter is split back into its elements. */
  lemma SplitsCommaList(parts: seq<string>, ty: Option<NamedType>)
    requires WantsArray(ty) && |parts| >= 1
    requires forall k :: 0 <= k < |parts| ==> ',' !in parts[k]
    ensures ParseBuiltinParamValue(VStr(PhpStrings.Join(parts, ',')), ty) == VList(Pieces(parts))
  {
    var s := PhpStrings.Join(parts, ',');
    PhpStrings.SplitJoin(parts, ',');
    assert !IsArray(VStr(s)) && !IsObject(VStr(s)) && ScalarString(VStr(s)) == s;
    assert ParseBuiltinParamValue(VStr(s), ty) == VList(Pieces(PhpStrings.Split(s, ',')));
  }

  /** `'10,20,30'` for an `array` parameter becomes `['10', '20', '30']`. */
  lemma SplitExample()
    ensures ParseBuiltinParamValue(VStr("10,20,30"), Some(NamedType("array", true)))
         == VList([VStr("10"), VStr("20"), VStr("30")])
  {
    var parts := ["10", "20", "30"];
    JoinExample();
    SplitsCommaList(parts, Some(NamedType("array", true)));
    assert Pieces(parts) == [VStr("10"), VStr("20"), VStr("30")];
  }

  /** `implode(',', ['10', '20', '30'])` */
  lemma JoinExample()
    ensures PhpStrings.Join(["10", "20", "30"], ',') == "10,20,30"
  {
    var parts := ["10", "20", "30"];
    assert parts[1..] == ["20", "30"];
    assert ["20", "30"][1..] == ["30"];
    assert PhpStrings.Join(["20", "30"], ',') == "20,30" by {
      assert PhpStrings.Join(["20", "30"], ',') == "20" + [','] + "30";
    }
    assert PhpStrings.Join(parts, ',') == "10" + [','] + "20,30";
  }
}
