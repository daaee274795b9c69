/**
 * A router groups endpoints under one REST namespace. Routers form a tree:
 * the root gives the namespace (its base and version), every sub-router a
 * REST base (its own base and version). Registering the root hooks every
 * router of the tree and copies the root's plugins, injectables and
 * exception handlers down to the sub-routers; registering a router's
 * endpoints registers each with WordPress and hands the router's
 * injectables to each endpoint's invoker.
 */
module Routers {
  import opened Values
  import PhpStrings
  import PluginDepends
  import Injection
  import Endpoints

  const NoParentMessage: string :=
    "You are trying to build a sub-router before building the parent router. \\\n\t\t\t\t\tCall the build() function on the parent router only!"
  const NoNamespaceMessage: string := "No api namespace specified in the parent router"
  const NoVersionMessage: string := "No api version specified in the parent router"
  /** What PHP throws when a router hands its exception handlers to an endpoint, which has no `onException`. */
  const NoEndpointOnException: string := "Call to undefined method Attributes\\Wp\\FastEndpoints\\Endpoint::onException()"

  /**
   * The namespace of a root, or the REST base of a sub-router: the base
   * trimmed of slashes, then a slash and the trimmed version when the
   * version is not empty or "0".
   */
  function Segment(base: string, version: string): (r: string)
    ensures PhpStrings.Trim(base, {'/'}) <= r
    ensures PhpStrings.IsFalsy(version) ==> r == PhpStrings.Trim(base, {'/'})
    ensures !PhpStrings.IsFalsy(version) ==>
              var b := PhpStrings.Trim(base, {'/'});
              |r| > |b| && r[|b|] == '/' && r[|b| + 1..] == PhpStrings.Trim(version, {'/'})
  {
    var b := PhpStrings.Trim(base, {'/'});
    if PhpStrings.IsFalsy(version) then b
    else
      var r := b + "/" + PhpStrings.Trim(version, {'/'});
      assert r[|b| + 1..] == PhpStrings.Trim(version, {'/'});
      r
  }

  /** Nested footprints: a strictly smaller one has fewer routers, and none has more than the outer one. */
  lemma SmallerFootprint<T>(a: set<T>, b: set<T>, outer: set<T>)
    requires a < b && b <= outer
    ensures |a| < |b| <= |outer|
  {
    assert !(b <= a);
    var x :| x in b && x !in a;
    assert b == a + (b - a);
    assert x in b - a;
    assert outer == b + (outer - b);
  }

  /** `inject` and `onException`: a name already taken keeps its handler unless overriding. */
  function Add(m: map<string, Handler>, name: string, h: Handler, override: bool): (r: map<string, Handler>)
    ensures r.Keys == m.Keys + {name}
    ensures forall k :: k in m && k != name ==> r[k] == m[k]
    ensures name in m && !override ==> r[name] == m[name]
    ensures !(name in m && !override) ==> r[name] == h
  {
    if name in m && !override then m else m[name := h]
  }

  /** What a sub-router holds after the copy-down: its own entries, and the parent's under the other names. */
  function Inherit(own: map<string, Handler>, inherited: map<string, Handler>): (r: map<string, Handler>)
    ensures r.Keys == own.Keys + inherited.Keys
    ensures forall k :: k in own ==> r[k] == own[k]
    ensures forall k :: k in inherited && k !in own ==> r[k] == inherited[k]
  {
    inherited + own
  }

  /** The entries of `m` under the names in `names`. */
  function Restrict(m: map<string, Handler>, names: set<string>): (r: map<string, Handler>)
    ensures r.Keys == m.Keys * names
    ensures forall k :: k in r ==> r[k] == m[k]
  {
    map k | k in m.Keys && k in names :: m[k]
  }

  /** Restricting to one more name adds that name's entry. */
  lemma RestrictOneMore(from: map<string, Handler>, done: set<string>, name: string)
    requires name in from
    ensures Restrict(from, done + {name}) == Restrict(from, done)[name := from[name]]
  {
    var lhs := Restrict(from, done + {name});
    var rhs := Restrict(from, done)[name := from[name]];
    assert lhs.Keys == rhs.Keys;
    forall k | k in lhs
      ensures lhs[k] == rhs[k]
    {
    }
  }

  /** Adding one more inherited entry without overriding is inheriting it. */
  lemma InheritOneMore(own: map<string, Handler>, from: map<string, Handler>, done: set<string>, name: string)
    requires name in from && name !in done
    ensures Add(Inherit(own, Restrict(from, done)), name, from[name], false) == Inherit(own, Restrict(from, done + {name}))
  {
    var before := Restrict(from, done);
    RestrictOneMore(from, done, name);
    var lhs := Add(Inherit(own, before), name, from[name], false);
    var rhs := Inherit(own, before[name := from[name]]);
    assert lhs.Keys == rhs.Keys;
    forall k | k in lhs
      ensures lhs[k] == rhs[k]
    {
      if k !in own && k != name {
        assert lhs[k] == before[k];
      }
    }
  }

  /** Copy-down is order-free and never displaces what the sub-router set itself. */
  lemma {:induction false} InheritTwice(own: map<string, Handler>, a: map<string, Handler>, b: map<string, Handler>)
    ensures Inherit(Inherit(own, a), b) == Inherit(own, Inherit(a, b))
  {
    var lhs := Inherit(Inherit(own, a), b);
    var rhs := Inherit(own, Inherit(a, b));
    assert lhs.Keys == rhs.Keys;
    forall k | k in lhs
      ensures lhs[k] == rhs[k]
    {
    }
  }

  /** The router's injectables as entries of an invoker's registry. */
  function Lift(injectables: map<string, Handler>): (r: map<string, Injection.Injectable>)
    ensures r.Keys == injectables.Keys
    ensures forall k :: k in r ==> r[k] == Injection.Callable(injectables[k])
  {
    map k | k in injectables :: Injection.Callable(injectables[k])
  }

  /** What `register` does to a sub-router's plugins when the parent has some. */
  function InheritPlugins(own: Option<seq<string>>, parent: Option<seq<string>>): Option<seq<string>>
  {
    if parent.Some? then Some(PluginDepends.AppendPlugins(own, PluginDepends.Many(parent.value))) else own
  }

  /**
   * The registration `register` makes for endpoint `e` once it holds
   * `plugins` and `permissionHandlers`, if its filtered arguments are not empty.
   */
  function ExpectedRegistration(e: Endpoints.Endpoint, plugins: Option<seq<string>>, permissionHandlers: seq<Handler>,
                                namespace: string, restBase: string, host: Endpoints.Host): Option<Endpoints.Registration>
  {
    var filtered := host.argsFilter(e.RouteArgs(plugins, permissionHandlers), namespace, restBase, VRef(e));
    if filtered == map[] then None else Some(Endpoints.Registration(namespace, Endpoints.JoinRoute(restBase, e.route), filtered, e.override))
  }

  /** The registry of an endpoint's invoker; before it has one, the registry a new invoker starts with. */
  ghost function Registry(e: Endpoints.Endpoint): map<string, Injection.Injectable>
    reads e`invoker, (if e.invoker != null then {e.invoker.inject} else {})`injectables
  {
    if e.invoker != null then e.invoker.inject.injectables else Injection.Builtins
  }

  /** What `registerEndpoints` reads and changes of an endpoint. */
  datatype Snapshot = Snapshot(plugins: Option<seq<string>>, permissionHandlers: seq<Handler>, fullRoute: string,
                               invoker: Injection.Invoker?, registry: map<string, Injection.Injectable>)

  ghost function SnapshotOf(e: Endpoints.Endpoint): (s: Snapshot)
    reads e`plugins, e`permissionHandlers, e`fullRoute, e`invoker, (if e.invoker != null then {e.invoker.inject} else {})`injectables
    ensures s.plugins == e.plugins && s.permissionHandlers == e.permissionHandlers && s.fullRoute == e.fullRoute
    ensures s.invoker == e.invoker && s.registry == Registry(e)
  {
    Snapshot(e.plugins, e.permissionHandlers, e.fullRoute, e.invoker, Registry(e))
  }

  /**
   * Where `registerEndpoints` places a router's endpoints: the namespace,
   * the REST base, the router's plugins and injectables, and the host.
   */
  datatype Placement = Placement(namespace: string, restBase: string, plugins: Option<seq<string>>,
                                 injectables: map<string, Handler>, host: Endpoints.Host)

  /**
   * What `registerEndpoints` leaves in endpoint `e`, which held `before`
   * and holds `after`, having answered `reg`: the router's plugins
   * appended, the registration its filtered arguments call for, the full
   * route set when it registered, an invoker (the one it had, if any) and
   * the router's injectables added to that invoker's registry.
   */
  ghost predicate Prepared(e: Endpoints.Endpoint, before: Snapshot, after: Snapshot, reg: Option<Endpoints.Registration>,
                           at: Placement)
  {
    after.plugins == InheritPlugins(before.plugins, at.plugins) &&
    after.permissionHandlers == before.permissionHandlers &&
    reg == ExpectedRegistration(e, after.plugins, after.permissionHandlers, at.namespace, at.restBase, at.host) &&
    (reg.Some? ==> after.fullRoute == "/" + at.namespace + "/" + Endpoints.JoinRoute(at.restBase, e.route)) &&
    (reg.None? ==> after.fullRoute == before.fullRoute) &&
    after.invoker != null && (before.invoker != null ==> after.invoker == before.invoker) &&
    after.registry == before.registry + Lift(at.injectables)
  }

  /** What `register` copies down to a sub-router: its plugins, injectables and exception handlers. */
  datatype Inheritance = Inheritance(plugins: Option<seq<string>>, injectables: map<string, Handler>,
                                     handlers: map<string, Handler>)

  ghost function InheritanceOf(c: Router): (r: Inheritance)
    reads c`plugins, c`injectables, c`onExceptionHandlers
  {
    Inheritance(c.plugins, c.injectables, c.onExceptionHandlers)
  }

  class Router {
    const base: string
    const version: string
    /** Whether `registerEndpoints` is hooked on `rest_api_init` (`has_action`). */
    var hooked: bool
    var registered: bool
    var parent: Router?
    var subRouters: seq<Router>
    var endpoints: seq<Endpoints.Endpoint>
    var plugins: Option<seq<string>>
    var injectables: map<string, Handler>
    var onExceptionHandlers: map<string, Handler>
    /** The routers of the tree under this one, this one included. */
    ghost var Repr: set<Router>
    /** The injection resolvers of the endpoints' invokers. */
    ghost var Injects: set<Injection.InjectParameterResolver>

    /**
     * The conditions one router of a tree keeps: its sub-routers point back
     * to it and own disjoint parts of its footprint, and every other router
     * in its footprint has its parent there, listing it as a sub-router.
     */
    ghost predicate NodeOk()
      reads this`Repr, Repr`Repr, Repr`subRouters, Repr`parent
    {
      this in Repr &&
      (forall y :: y in Repr ==> y.Repr <= Repr) &&
      (forall y :: y in Repr && y != this ==> this !in y.Repr) &&
      (forall c :: c in subRouters ==> c in Repr && c.parent == this && this !in c.Repr) &&
      (forall i, j :: 0 <= i < j < |subRouters| ==> subRouters[i].Repr !! subRouters[j].Repr) &&
      (forall y :: y in Repr && y != this ==> y.parent != null && y.parent in Repr && y in y.parent.subRouters)
    }

    /** A well-formed router tree: every router in the footprint keeps its conditions. */
    ghost predicate Valid()
      reads this`Repr, Repr`Repr, Repr`subRouters, Repr`parent
    {
      this in Repr &&
      (forall x :: x in Repr ==> x.Repr <= Repr) &&
      (forall x {:trigger x.NodeOk()} :: x in Repr ==> x.NodeOk())
    }

    /**
     * Endpoints are distinct objects, each with its own injection resolver,
     * all of them in `Injects`.
     */
    ghost predicate EndpointsOk()
      reads this`endpoints, this`Injects, endpoints`invoker, Injects
    {
      (forall i, j :: 0 <= i < j < |endpoints| ==> endpoints[i] != endpoints[j]) &&
      (forall e :: e in endpoints ==> (e.invoker != null ==> e.invoker.inject in Injects) && e.Valid()) &&
      (forall i, j :: 0 <= i < j < |endpoints| && endpoints[i].invoker != null && endpoints[j].invoker != null ==>
         endpoints[i].invoker.inject != endpoints[j].invoker.inject)
    }

    /** A new router: a tree of its own, with nothing attached. */
    constructor (base: string, version: string)
      ensures this.base == base && this.version == version
      ensures !hooked && !registered && parent == null && subRouters == [] && endpoints == []
      ensures plugins == None && injectables == map[] && onExceptionHandlers == map[]
      ensures Repr == {this} && Valid() && EndpointsOk()
    {
      this.base := base;
      this.version := version;
      hooked, registered := false, false;
      parent := null;
      subRouters := [];
      endpoints := [];
      plugins := None;
      injectables := map[];
      onExceptionHandlers := map[];
      Repr := {this};
      Injects := {};
    }

    /** A sub-router of a valid router heads a valid tree inside its footprint. */
    lemma SubRouterValid(c: Router)
      requires Valid() && c in subRouters
      ensures c.Valid() && c.Repr < Repr && c.parent == this
    {
      assert NodeOk();
      assert c in Repr && c.NodeOk();
    }

    /**
     * `getNamespace`: the root's segment, reached by following parents.
     * `root` is the root of the tree this router belongs to.
     */
    function Namespace(ghost root: Router): string
      requires root.Valid() && root.parent == null && this in root.Repr
      reads root`Repr, root.Repr`Repr, root.Repr`subRouters, root.Repr`parent
      decreases |root.Repr| - |Repr|
    {
      if parent != null then
        assert root.NodeOk() && parent.NodeOk();
        SmallerFootprint(Repr, parent.Repr, root.Repr);
        parent.Namespace(root)
      else Segment(base, version)
    }

    /** Every router of a tree reports the root's namespace. */
    lemma {:induction false} NamespaceIsRoot(root: Router)
      requires root.Valid() && root.parent == null && this in root.Repr
      ensures Namespace(root) == Segment(root.base, root.version)
      decreases |root.Repr| - |Repr|
    {
      assert root.NodeOk();
      if parent != null {
        assert parent.NodeOk();
        SmallerFootprint(Repr, parent.Repr, root.Repr);
        parent.NamespaceIsRoot(root);
      } else {
        assert this == root;
      }
    }

    /** The namespace `registerEndpoints` computes: the root's segment. */
    method RootNamespace(ghost root: Router) returns (namespace: string)
      requires root.Valid() && root.parent == null && this in root.Repr
      ensures namespace == Segment(root.base, root.version)
    {
      namespace := Namespace(root);
      NamespaceIsRoot(root);
    }

    /** `getRestBase`: empty for a root, else the router's own segment (not its ancestors'). */
    function RestBase(): (r: string)
      reads this`parent
      ensures parent == null ==> r == ""
      ensures parent != null ==> r == Segment(base, version)
    {
      if parent == null then "" else Segment(base, version)
    }

    /** `inject` */
    method Inject(name: string, h: Handler, override: bool) returns (self: Router)
      modifies this`injectables
      ensures injectables == Add(old(injectables), name, h, override) && self == this
    {
      if !(name in injectables && !override) {
        injectables := injectables[name := h];
      }
      self := this;
    }

    /** `onException` */
    method OnException(exceptionClass: string, h: Handler, override: bool) returns (self: Router)
      modifies this`onExceptionHandlers
      ensures onExceptionHandlers == Add(old(onExceptionHandlers), exceptionClass, h, override) && self == this
    {
      if !(exceptionClass in onExceptionHandlers && !override) {
        onExceptionHandlers := onExceptionHandlers[exceptionClass := h];
      }
      self := this;
    }

    /** `depends`: appends to the router's plugins. */
    method Depends(arg: PluginDepends.PluginArg) returns (self: Router)
      modifies this`plugins
      ensures plugins == Some(PluginDepends.AppendPlugins(old(plugins), arg)) && self == this
    {
      plugins := Some(PluginDepends.AppendPlugins(plugins, arg));
      self := this;
    }

    /** The copy-down of the parent's injectables: `inject` of each entry, without overriding. */
    method InheritInjectables(from: map<string, Handler>)
      modifies this`injectables
      ensures injectables == Inherit(old(injectables), from)
    {
      var pending := from.Keys;
      while pending != {}
        invariant pending <= from.Keys
        invariant injectables == Inherit(old(injectables), Restrict(from, from.Keys - pending))
        decreases pending
      {
        var name :| name in pending;
        InheritOneMore(old(injectables), from, from.Keys - pending, name);
        assert from.Keys - pending + {name} == from.Keys - (pending - {name});
        var _ := Inject(name, from[name], false);
        pending := pending - {name};
      }
      assert Restrict(from, from.Keys) == from;
    }

    /** The copy-down of the parent's exception handlers: `onException` of each entry, without overriding. */
    method InheritExceptionHandlers(from: map<string, Handler>)
      modifies this`onExceptionHandlers
      ensures onExceptionHandlers == Inherit(old(onExceptionHandlers), from)
    {
      var pending := from.Keys;
      while pending != {}
        invariant pending <= from.Keys
        invariant onExceptionHandlers == Inherit(old(onExceptionHandlers), Restrict(from, from.Keys - pending))
        decreases pending
      {
        var name :| name in pending;
        InheritOneMore(old(onExceptionHandlers), from, from.Keys - pending, name);
        assert from.Keys - pending + {name} == from.Keys - (pending - {name});
        var _ := OnException(name, from[name], false);
        pending := pending - {name};
      }
      assert Restrict(from, from.Keys) == from;
    }

    /** Every router of `routers` is hooked. */
    ghost predicate AllHooked(routers: set<Router>)
      reads routers`hooked
    {
      forall x :: x in routers ==> x.hooked
    }

    /**
     * What the copy-down leaves in sub-router `c` that held `plugins0`,
     * `injectables0` and `handlers0`: the parent's plugins appended, and the
     * parent's injectables and exception handlers under the names it did not
     * set itself.
     */
    ghost predicate CopiedDown(c: Router, plugins0: Option<seq<string>>,
                               injectables0: map<string, Handler>, handlers0: map<string, Handler>)
      reads this`plugins, this`injectables, this`onExceptionHandlers
      reads c`plugins, c`injectables, c`onExceptionHandlers
    {
      c.plugins == InheritPlugins(plugins0, plugins) &&
      c.injectables == Inherit(injectables0, injectables) &&
      c.onExceptionHandlers == Inherit(handlers0, onExceptionHandlers)
    }

    /**
     * The checks `register` makes before hooking: a sub-router whose parent
     * is not hooked yet, and a root without a base or without a version,
     * stop the request (`wp_die`) with their messages.
     */
    function Stopped(): (died: Option<string>)
      reads this`parent, (if parent != null then {parent} else {})`hooked
      ensures parent != null ==> (died.Some? <==> !parent.hooked) && (died.Some? ==> died.value == NoParentMessage)
      ensures parent == null && PhpStrings.IsFalsy(base) ==> died == Some(NoNamespaceMessage)
      ensures parent == null && !PhpStrings.IsFalsy(base) && PhpStrings.IsFalsy(version) ==> died == Some(NoVersionMessage)
      ensures parent == null && !PhpStrings.IsFalsy(base) && !PhpStrings.IsFalsy(version) ==> died == None
    {
      if parent != null then
        if !parent.hooked then Some(NoParentMessage) else None
      else if PhpStrings.IsFalsy(base) then Some(NoNamespaceMessage)
      else if PhpStrings.IsFalsy(version) then Some(NoVersionMessage)
      else None
    }

    /**
     * `register`: stops the request (`wp_die`) for a sub-router whose parent
     * is not hooked yet, and for a root without a base or a version;
     * otherwise hooks this router and registers each sub-router after
     * copying this router's plugins, injectables and exception handlers down
     * to it. A sub-router registered from its parent never stops.
     */
    method Register() returns (died: Option<string>)
      requires Valid()
      modifies Repr`hooked, Repr`plugins, Repr`injectables, Repr`onExceptionHandlers
      decreases Repr, 2
      ensures died == old(Stopped())
      ensures died.Some? ==> unchanged(Repr)
      ensures died.None? ==> AllHooked(Repr)
      ensures plugins == old(plugins) && injectables == old(injectables) && onExceptionHandlers == old(onExceptionHandlers)
      ensures died.None? ==> forall x :: x in Repr && x != this ==>
                x.parent != null && x.parent.CopiedDown(x, old(x.plugins), old(x.injectables), old(x.onExceptionHandlers))
    {
      died := Stopped();
      if died.Some? {
        return;
      }
      ghost var deep := map x | x in Repr :: InheritanceOf(x);
      hooked := true;
      assert NodeOk();
      forall k | 0 <= k < |subRouters|
        ensures subRouters[k] in Repr && subRouters[k].Repr <= Repr && SubtreeKept(subRouters[k], deep)
      {
        assert subRouters[k] in Repr;
      }
      var i := 0;
      while i < |subRouters|
        invariant SubProgress(i, deep)
        invariant plugins == old(plugins) && injectables == old(injectables) && onExceptionHandlers == old(onExceptionHandlers)
      {
        RegisterSubRouter(i, deep);
        i := i + 1;
      }
      RootedHooked();
      TreeCopied(deep);
      died := None;
    }

    /** Every router of `c`'s tree still holds what `deep` recorded for it. */
    ghost predicate SubtreeKept(c: Router, deep: map<Router, Inheritance>)
      reads c`Repr, c.Repr`plugins, c.Repr`injectables, c.Repr`onExceptionHandlers
    {
      forall x :: x in c.Repr ==> x in deep && InheritanceOf(x) == deep[x]
    }

    /**
     * Every router of `c`'s tree below `c` holds the copy-down, from its
     * parent, of what `deep` recorded for it.
     */
    ghost predicate SubtreeCopied(c: Router, deep: map<Router, Inheritance>)
      reads c`Repr, c.Repr`parent, c.Repr`plugins, c.Repr`injectables, c.Repr`onExceptionHandlers
    {
      forall x :: x in c.Repr && x != c ==>
        x in deep && x.parent != null && x.parent in c.Repr &&
        x.parent.CopiedDown(x, deep[x].plugins, deep[x].injectables, deep[x].handlers)
    }

    /**
     * How far `register`'s loop has come, `i` sub-routers in: those trees
     * are hooked throughout, the sub-router holds the copy-down of what it
     * held at the start (`deep`), and so does every router below it from
     * its own parent; the other trees still hold what they held.
     */
    ghost predicate SubProgress(i: int, deep: map<Router, Inheritance>)
      reads this, Repr
    {
      Valid() && hooked && 0 <= i <= |subRouters| &&
      (forall k :: 0 <= k < |subRouters| ==> subRouters[k] in Repr && subRouters[k].Repr <= Repr) &&
      (forall k :: 0 <= k < i ==>
         AllHooked(subRouters[k].Repr) && subRouters[k] in deep &&
         CopiedDown(subRouters[k], deep[subRouters[k]].plugins, deep[subRouters[k]].injectables, deep[subRouters[k]].handlers) &&
         SubtreeCopied(subRouters[k], deep)) &&
      (forall k :: i <= k < |subRouters| ==> SubtreeKept(subRouters[k], deep))
    }

    /** One step of `register`'s loop: the copy-down to the `i`-th sub-router, then its `register`. */
    method RegisterSubRouter(i: int, ghost deep: map<Router, Inheritance>)
      requires SubProgress(i, deep) && i < |subRouters|
      modifies subRouters[i].Repr`hooked, subRouters[i].Repr`plugins
      modifies subRouters[i].Repr`injectables, subRouters[i].Repr`onExceptionHandlers
      decreases Repr, 1
      ensures SubProgress(i + 1, deep)
      ensures plugins == old(plugins) && injectables == old(injectables) && onExceptionHandlers == old(onExceptionHandlers)
    {
      SiblingsApart(i);
      var c := subRouters[i];
      SubRouterValid(c);
      assert c.NodeOk();
      assert SubtreeKept(c, deep);
      RegisterChild(i);
      forall x | x in c.Repr && x != c
        ensures x in deep && x.parent != null && x.parent in c.Repr &&
                x.parent.CopiedDown(x, deep[x].plugins, deep[x].injectables, deep[x].handlers)
      {
        assert old(InheritanceOf(x)) == deep[x];
      }
    }

    /**
     * Once `register`'s loop is through, every router of the tree below this
     * one holds the copy-down, from its parent, of what `deep` recorded.
     */
    lemma TreeCopied(deep: map<Router, Inheritance>)
      requires SubProgress(|subRouters|, deep)
      ensures forall x :: x in Repr && x != this ==>
                x in deep && x.parent != null && x.parent.CopiedDown(x, deep[x].plugins, deep[x].injectables, deep[x].handlers)
    {
      forall x | x in Repr && x != this
        ensures x in deep && x.parent != null && x.parent.CopiedDown(x, deep[x].plugins, deep[x].injectables, deep[x].handlers)
      {
        InSomeSubtree(x);
        var k :| 0 <= k < |subRouters| && x in subRouters[k].Repr;
        if x != subRouters[k] {
          assert SubtreeCopied(subRouters[k], deep);
        } else {
          assert NodeOk();
        }
      }
    }

    /** The copy-down to the `i`-th sub-router and its `register`, which cannot stop the request. */
    method RegisterChild(i: int)
      requires Valid() && hooked && 0 <= i < |subRouters|
      modifies subRouters[i].Repr`hooked, subRouters[i].Repr`plugins
      modifies subRouters[i].Repr`injectables, subRouters[i].Repr`onExceptionHandlers
      decreases Repr, 0
      ensures AllHooked(subRouters[i].Repr)
      ensures CopiedDown(subRouters[i], old(subRouters[i].plugins), old(subRouters[i].injectables),
                         old(subRouters[i].onExceptionHandlers))
      ensures forall x :: x in subRouters[i].Repr && x != subRouters[i] ==>
                x.parent != null && x.parent.CopiedDown(x, old(x.plugins), old(x.injectables), old(x.onExceptionHandlers))
    {
      var c := subRouters[i];
      SubRouterValid(c);
      assert c in c.Repr && c != this;
      CopyDownTo(c);
      var childDied := c.Register();
      assert childDied.None?;
    }

    /** The copy-down of `register`: this router's plugins, injectables and exception handlers, to `c`. */
    method CopyDownTo(c: Router)
      requires c != this
      modifies c`plugins, c`injectables, c`onExceptionHandlers
      ensures CopiedDown(c, old(c.plugins), old(c.injectables), old(c.onExceptionHandlers))
    {
      if plugins.Some? {
        var _ := c.Depends(PluginDepends.Many(plugins.value));
      }
      c.InheritInjectables(injectables);
      c.InheritExceptionHandlers(onExceptionHandlers);
    }

    /** The `i`-th sub-router's footprint holds neither this router nor any part of a sibling's. */
    lemma SiblingsApart(i: int)
      requires Valid() && 0 <= i < |subRouters|
      ensures this !in subRouters[i].Repr
      ensures forall k :: 0 <= k < |subRouters| && k != i ==>
                subRouters[k] in subRouters[k].Repr && subRouters[k].Repr !! subRouters[i].Repr
    {
      assert NodeOk();
      forall k | 0 <= k < |subRouters| && k != i
        ensures subRouters[k] in subRouters[k].Repr && subRouters[k].Repr !! subRouters[i].Repr
      {
        assert subRouters[k] in Repr && subRouters[k].NodeOk();
        if k < i {
          assert subRouters[k].Repr !! subRouters[i].Repr;
        } else {
          assert subRouters[i].Repr !! subRouters[k].Repr;
        }
      }
    }

    /** When every sub-router's tree is hooked and this router is, the whole tree is. */
    lemma RootedHooked()
      requires Valid() && hooked
      requires forall k :: 0 <= k < |subRouters| ==> AllHooked(subRouters[k].Repr)
      ensures AllHooked(Repr)
    {
      assert NodeOk();
      forall x | x in Repr
        ensures x.hooked
      {
        if x != this {
          InSomeSubtree(x);
          var c :| c in subRouters && x in c.Repr;
          var k :| 0 <= k < |subRouters| && subRouters[k] == c;
          assert AllHooked(subRouters[k].Repr);
        }
      }
    }

    /** Every router of the footprint but this one lies in some sub-router's footprint. */
    lemma InSomeSubtree(x: Router)
      requires Valid() && x in Repr && x != this
      ensures exists c :: c in subRouters && x in c.Repr
      decreases |Repr| - |x.Repr|
    {
      assert NodeOk();
      var p := x.parent;
      assert p.NodeOk();
      if p == this {
        assert x.NodeOk();
        assert x in x.Repr;
        assert x in subRouters;
      } else {
        SmallerFootprint(x.Repr, p.Repr, Repr);
        InSomeSubtree(p);
        var c :| c in subRouters && p in c.Repr;
        assert c.NodeOk();
        assert p.Repr <= c.Repr;
        assert x.NodeOk();
      }
    }

    /** No two endpoints share an object: neither the endpoint nor its injection resolver. */
    lemma EndpointsApart(i: int)
      requires EndpointsOk() && 0 <= i < |endpoints|
      ensures forall k :: 0 <= k < |endpoints| && k != i ==>
                endpoints[k] != endpoints[i] && endpoints[k].InjectFrame() !! endpoints[i].InjectFrame()
    {
    }

    /**
     * `registerEndpoints`: registers every endpoint under the namespace and
     * REST base, after adding this router's plugins to it; then hands this
     * router's injectables to the endpoint's invoker. An endpoint is given
     * this router's exception handlers through a method it does not have,
     * so any exception handler makes the first endpoint stop the request
     * with a PHP `Error`. `root` is the root of the router's tree; `after`
     * holds what each endpoint holds afterwards.
     */
    method RegisterEndpoints(host: Endpoints.Host, ghost root: Router)
      returns (r: Result<seq<Option<Endpoints.Registration>>>, ghost after: seq<Snapshot>)
      requires root.Valid() && root.parent == null && this in root.Repr
      requires EndpointsOk()
      modifies this`registered, this`Injects, endpoints`plugins, endpoints`fullRoute, endpoints`invoker, Injects
      ensures EndpointsOk()
      ensures r.Err? <==> onExceptionHandlers != map[] && |endpoints| > 0
      ensures r.Err? ==> r.error == Fatal(NoEndpointOnException) && registered == old(registered) &&
                         endpoints[0].plugins == InheritPlugins(old(endpoints[0].plugins), plugins)
      ensures r.Ok? ==> registered && |r.value| == |endpoints| && |after| == |endpoints|
      ensures r.Ok? ==> forall k :: 0 <= k < |endpoints| ==> after[k] == SnapshotOf(endpoints[k])
      ensures r.Ok? ==> forall k :: 0 <= k < |endpoints| ==>
                Prepared(endpoints[k], old(SnapshotOf(endpoints[k])), after[k], r.value[k],
                         old(Placement(Segment(root.base, root.version), RestBase(), plugins, injectables, host)))
    {
      var namespace := Namespace(root);
      assert namespace == Segment(root.base, root.version) by {
        NamespaceIsRoot(root);
      }
      var restBase := RestBase();
      ghost var at := Placement(namespace, restBase, plugins, injectables, host);
      r, after := RegisterEndpointsAt(namespace, restBase, host, at);
    }

    /** `registerEndpoints` once the namespace and the REST base are known, `at` naming them with the router's state. */
    method RegisterEndpointsAt(namespace: string, restBase: string, host: Endpoints.Host, ghost at: Placement)
      returns (r: Result<seq<Option<Endpoints.Registration>>>, ghost after: seq<Snapshot>)
      requires EndpointsOk() && at == Placement(namespace, restBase, plugins, injectables, host)
      modifies this`registered, this`Injects, endpoints`plugins, endpoints`fullRoute, endpoints`invoker, Injects
      ensures EndpointsOk()
      ensures r.Err? <==> onExceptionHandlers != map[] && |endpoints| > 0
      ensures r.Err? ==> r.error == Fatal(NoEndpointOnException) && registered == old(registered) &&
                         endpoints[0].plugins == InheritPlugins(old(endpoints[0].plugins), plugins)
      ensures r.Ok? ==> registered && |r.value| == |endpoints| && |after| == |endpoints|
      ensures r.Ok? ==> forall k :: 0 <= k < |endpoints| ==> after[k] == SnapshotOf(endpoints[k])
      ensures r.Ok? ==> forall k :: 0 <= k < |endpoints| ==>
                Prepared(endpoints[k], old(SnapshotOf(endpoints[k])), after[k], r.value[k], at)
    {
      if onExceptionHandlers != map[] && |endpoints| > 0 {
        var reg, _, _ := RegisterEndpointAt(0, namespace, restBase, host);
        return Err(reg.error), [];
      }
      ghost var start := Snapshots();
      var regs;
      regs, after := RegisterAll(namespace, restBase, host, start, at);
      r := Ok(regs);
    }

    /** What every endpoint holds now, in order. */
    ghost method Snapshots() returns (start: seq<Snapshot>)
      requires EndpointsOk()
      ensures |start| == |endpoints| && forall k :: 0 <= k < |endpoints| ==> start[k] == SnapshotOf(endpoints[k])
    {
      start := [];
      for j := 0 to |endpoints|
        invariant |start| == j
        invariant forall k :: 0 <= k < j ==> start[k] == SnapshotOf(endpoints[k])
      {
        start := start + [SnapshotOf(endpoints[j])];
      }
    }

    /**
     * How far `registerEndpoints`' loop has come, `i` endpoints in: those
     * are prepared from what they held at the start (`start`) and answered
     * `regs`, leaving what `done` records; the rest still hold what they held.
     */
    ghost predicate Progress(i: int, regs: seq<Option<Endpoints.Registration>>, done: seq<Snapshot>, start: seq<Snapshot>,
                             at: Placement)
      reads this`endpoints, this`Injects, endpoints, Injects
    {
      EndpointsOk() && |start| == |endpoints| && 0 <= i <= |endpoints| && |regs| == i && |done| == i &&
      (forall k :: 0 <= k < |endpoints| ==> endpoints[k].InjectFrame() <= Injects) &&
      (forall k :: 0 <= k < i ==> Prepared(endpoints[k], start[k], done[k], regs[k], at)) &&
      (forall k :: 0 <= k < i ==> done[k] == SnapshotOf(endpoints[k])) &&
      (forall k :: i <= k < |endpoints| ==> SnapshotOf(endpoints[k]) == start[k])
    }

    /**
     * The loop of `registerEndpoints` when no exception handler stops it:
     * every endpoint, which held `start`, prepared in turn at `at`.
     */
    method RegisterAll(namespace: string, restBase: string, host: Endpoints.Host, ghost start: seq<Snapshot>, ghost at: Placement)
      returns (regs: seq<Option<Endpoints.Registration>>, ghost done: seq<Snapshot>)
      requires EndpointsOk() && (onExceptionHandlers == map[] || |endpoints| == 0)
      requires |start| == |endpoints| && forall k :: 0 <= k < |endpoints| ==> start[k] == SnapshotOf(endpoints[k])
      requires at == Placement(namespace, restBase, plugins, injectables, host)
      modifies this`registered, this`Injects, endpoints`plugins, endpoints`fullRoute, endpoints`invoker, Injects
      ensures EndpointsOk() && registered && |regs| == |endpoints| && |done| == |endpoints|
      ensures forall k :: 0 <= k < |endpoints| ==> done[k] == SnapshotOf(endpoints[k])
      ensures forall k :: 0 <= k < |endpoints| ==> Prepared(endpoints[k], start[k], done[k], regs[k], at)
    {
      regs := [];
      done := [];
      var i := 0;
      while i < |endpoints|
        invariant Progress(i, regs, done, start, at)
        invariant forall k :: 0 <= k < |start| && start[k].invoker != null ==> start[k].invoker.inject in old(Injects)
      {
        assert SnapshotOf(endpoints[i]) == start[i];
        regs, done := RegisterNext(i, namespace, restBase, host, regs, done, start, at);
        i := i + 1;
      }
      registered := true;
    }

    /**
     * One turn of `registerEndpoints`' loop: the `i`-th endpoint's step,
     * its registration appended to `regs` and what it then holds to `done`.
     */
    method RegisterNext(i: int, namespace: string, restBase: string, host: Endpoints.Host,
                        regs: seq<Option<Endpoints.Registration>>, ghost done: seq<Snapshot>, ghost start: seq<Snapshot>,
                        ghost at: Placement)
      returns (regs': seq<Option<Endpoints.Registration>>, ghost done': seq<Snapshot>)
      requires Progress(i, regs, done, start, at) && at == Placement(namespace, restBase, plugins, injectables, host)
      requires i < |endpoints| && onExceptionHandlers == map[]
      modifies this`Injects, {endpoints[i]}`plugins, {endpoints[i]}`fullRoute, {endpoints[i]}`invoker
      modifies endpoints[i].InjectFrame()
      ensures Progress(i + 1, regs', done', start, at)
    {
      var reg, _, after := RegisterEndpointAt(i, namespace, restBase, host);
      regs', done' := regs + [reg.value], done + [after];
      InjectsCovered();
    }

    /** Every endpoint's injection resolver is among `Injects`, by position. */
    lemma InjectsCovered()
      requires EndpointsOk()
      ensures forall k :: 0 <= k < |endpoints| ==> endpoints[k].InjectFrame() <= Injects
    {
      forall k | 0 <= k < |endpoints|
        ensures endpoints[k].InjectFrame() <= Injects
      {
        assert endpoints[k] in endpoints;
      }
    }

    /**
     * One step of `registerEndpoints`' loop, for the `i`-th endpoint: its
     * `depends`, then the exception handlers it cannot take, then its
     * `register` and its invoker's `setInjectables`. The other endpoints
     * keep what `registerEndpoints` reads and changes of them.
     */
    method RegisterEndpointAt(i: int, namespace: string, restBase: string, host: Endpoints.Host)
      returns (r: Result<Option<Endpoints.Registration>>, ghost before: Snapshot, ghost after: Snapshot)
      requires EndpointsOk() && 0 <= i < |endpoints|
      modifies this`Injects, {endpoints[i]}`plugins, {endpoints[i]}`fullRoute, {endpoints[i]}`invoker
      modifies endpoints[i].InjectFrame()
      ensures EndpointsOk()
      ensures endpoints[i].plugins == InheritPlugins(old(endpoints[i].plugins), plugins)
      ensures r.Err? <==> onExceptionHandlers != map[]
      ensures r.Err? ==> r.error == Fatal(NoEndpointOnException)
      ensures forall k :: 0 <= k < |endpoints| && k != i ==> SnapshotOf(endpoints[k]) == old(SnapshotOf(endpoints[k]))
      ensures before == old(SnapshotOf(endpoints[i])) && after == SnapshotOf(endpoints[i])
      ensures r.Ok? ==> Prepared(endpoints[i], before, after, r.value, Placement(namespace, restBase, plugins, injectables, host))
    {
      before := SnapshotOf(endpoints[i]);
      if plugins.Some? {
        DependsAt(i);
      }
      if onExceptionHandlers != map[] {
        return Err(Fatal(NoEndpointOnException)), before, SnapshotOf(endpoints[i]);
      }
      var reg := RegisterAt(i, namespace, restBase, host);
      HandInjectables(i, host);
      return Ok(reg), before, SnapshotOf(endpoints[i]);
    }

    /** The start of `registerEndpoints`' loop step: the `i`-th endpoint's `depends` on this router's plugins. */
    method DependsAt(i: int)
      requires EndpointsOk() && 0 <= i < |endpoints| && plugins.Some?
      modifies {endpoints[i]}`plugins
      ensures EndpointsOk()
      ensures SnapshotOf(endpoints[i]) == old(SnapshotOf(endpoints[i])).(plugins := InheritPlugins(old(endpoints[i].plugins), plugins))
      ensures forall k :: 0 <= k < |endpoints| && k != i ==> SnapshotOf(endpoints[k]) == old(SnapshotOf(endpoints[k]))
    {
      var e := endpoints[i];
      EndpointsApart(i);
      var _ := e.Depends(PluginDepends.Many(plugins.value));
    }

    /** The `i`-th endpoint's `register` in `registerEndpoints`' loop step. */
    method RegisterAt(i: int, namespace: string, restBase: string, host: Endpoints.Host) returns (reg: Option<Endpoints.Registration>)
      requires EndpointsOk() && 0 <= i < |endpoints|
      modifies {endpoints[i]}`fullRoute
      ensures EndpointsOk()
      ensures reg == ExpectedRegistration(endpoints[i], endpoints[i].plugins, endpoints[i].permissionHandlers, namespace, restBase, host)
      ensures SnapshotOf(endpoints[i]) == old(SnapshotOf(endpoints[i])).(fullRoute :=
                if reg.Some? then "/" + namespace + "/" + Endpoints.JoinRoute(restBase, endpoints[i].route) else old(endpoints[i].fullRoute))
      ensures forall k :: 0 <= k < |endpoints| && k != i ==> SnapshotOf(endpoints[k]) == old(SnapshotOf(endpoints[k]))
    {
      var e := endpoints[i];
      EndpointsApart(i);
      var _, r := e.Register(namespace, restBase, host);
      reg := r;
    }

    /**
     * The end of `registerEndpoints`' loop step for the `i`-th endpoint:
     * its invoker (made if missing) receives this router's injectables.
     */
    method HandInjectables(i: int, host: Endpoints.Host)
      requires EndpointsOk() && 0 <= i < |endpoints|
      modifies this`Injects, {endpoints[i]}`invoker, endpoints[i].InjectFrame()
      ensures EndpointsOk()
      ensures endpoints[i].invoker != null && (old(endpoints[i].invoker) != null ==> endpoints[i].invoker == old(endpoints[i].invoker))
      ensures SnapshotOf(endpoints[i]) == old(SnapshotOf(endpoints[i])).(invoker := endpoints[i].invoker,
                                           registry := old(Registry(endpoints[i])) + Lift(injectables))
      ensures forall k :: 0 <= k < |endpoints| && k != i ==> SnapshotOf(endpoints[k]) == old(SnapshotOf(endpoints[k]))
    {
      var e := endpoints[i];
      EndpointsApart(i);
      ghost var registry0 := Registry(e);
      var inv := e.GetInvoker(host);
      assert inv.inject.injectables == registry0;
      inv.inject.SetInjectables(Lift(injectables));
      Injects := Injects + {inv.inject};
      forall k | 0 <= k < |endpoints| && k != i
        ensures endpoints[k].invoker == old(endpoints[k].invoker) && endpoints[k].Valid()
        ensures Registry(endpoints[k]) == old(Registry(endpoints[k]))
      {
        var other := endpoints[k];
        if other.invoker != null {
          assert other in old(endpoints) && old(other.Valid());
          assert other.invoker.inject != inv.inject;
          assert other.invoker.inject.injectables == old(other.invoker.inject.injectables);
        }
      }
    }

    /** `endpoint`: creates an endpoint and attaches it to this router. */
    method Endpoint(httpMethod: string, route: string, handler: Handler, args: Params, override: bool)
      returns (e: Endpoints.Endpoint)
      requires EndpointsOk()
      modifies this`endpoints
      ensures fresh(e) && endpoints == old(endpoints) + [e] && EndpointsOk()
      ensures e.httpMethod == httpMethod && e.route == route && e.args == args && e.override == override
      ensures e.handler == handler && e.fullRoute == route && e.invoker == null
    {
      e := new Endpoints.Endpoint(httpMethod, route, handler, args, override);
      endpoints := endpoints + [e];
    }

    /** `get` */
    method Get(route: string, handler: Handler, args: Params, override: bool) returns (e: Endpoints.Endpoint)
      requires EndpointsOk()
      modifies this`endpoints
      ensures fresh(e) && endpoints == old(endpoints) + [e] && EndpointsOk()
      ensures e.httpMethod == "GET" && e.route == route && e.args == args && e.override == override
      ensures e.handler == handler && e.fullRoute == route && e.invoker == null
    {
      e := Endpoint("GET", route, handler, args, override);
    }

    /** `post` */
    method Post(route: string, handler: Handler, args: Params, override: bool) returns (e: Endpoints.Endpoint)
      requires EndpointsOk()
      modifies this`endpoints
      ensures fresh(e) && endpoints == old(endpoints) + [e] && EndpointsOk()
      ensures e.httpMethod == "POST" && e.route == route && e.args == args && e.override == override
      ensures e.handler == handler && e.fullRoute == route && e.invoker == null
    {
      e := Endpoint("POST", route, handler, args, override);
    }

    /** `put` */
    method Put(route: string, handler: Handler, args: Params, override: bool) returns (e: Endpoints.Endpoint)
      requires EndpointsOk()
      modifies this`endpoints
      ensures fresh(e) && endpoints == old(endpoints) + [e] && EndpointsOk()
      ensures e.httpMethod == "PUT" && e.route == route && e.args == args && e.override == override
      ensures e.handler == handler && e.fullRoute == route && e.invoker == null
    {
      e := Endpoint("PUT", route, handler, args, override);
    }

    /** `delete` */
    method Delete(route: string, handler: Handler, args: Params, override: bool) returns (e: Endpoints.Endpoint)
      requires EndpointsOk()
      modifies this`endpoints
      ensures fresh(e) && endpoints == old(endpoints) + [e] && EndpointsOk()
      ensures e.httpMethod == "DELETE" && e.route == route && e.args == args && e.override == override
      ensures e.handler == handler && e.fullRoute == route && e.invoker == null
    {
      e := Endpoint("DELETE", route, handler, args, override);
    }

    /** `patch` */
    method Patch(route: string, handler: Handler, args: Params, override: bool) returns (e: Endpoints.Endpoint)
      requires EndpointsOk()
      modifies this`endpoints
      ensures fresh(e) && endpoints == old(endpoints) + [e] && EndpointsOk()
      ensures e.httpMethod == "PATCH" && e.route == route && e.args == args && e.override == override
      ensures e.handler == handler && e.fullRoute == route && e.invoker == null
    {
      e := Endpoint("PATCH", route, handler, args, override);
    }

    /**
     * `includeRouter`: makes `r` a sub-router of this one, which heads the
     * tree. `r` heads a tree of its own that shares no router with this one.
     */
    method IncludeRouter(r: Router)
      requires Valid() && parent == null
      requires r.Valid() && r.parent == null && Repr !! r.Repr
      modifies this`subRouters, this`Repr, r`parent
      ensures subRouters == old(subRouters) + [r] && r.parent == this
      ensures Repr == old(Repr) + r.Repr && Valid()
    {
      assert NodeOk() && r.NodeOk();
      r.parent := this;
      subRouters := subRouters + [r];
      Repr := Repr + r.Repr;
      IncludedValid(r);
    }

    /** The tree conditions after `includeRouter`. */
    twostate lemma IncludedValid(r: Router)
      requires old(Valid()) && old(r.Valid()) && old(r.parent) == null && old(Repr) !! old(r.Repr)
      requires r.parent == this && subRouters == old(subRouters) + [r] && Repr == old(Repr) + old(r.Repr)
      requires forall x :: x in old(Repr) + old(r.Repr) && x != this ==> x.Repr == old(x.Repr) && x.subRouters == old(x.subRouters)
      requires forall x :: x in old(Repr) + old(r.Repr) && x != r ==> x.parent == old(x.parent)
      ensures Valid()
    {
      assert old(NodeOk()) && old(r.NodeOk());
      forall x | x in Repr
        ensures x.Repr <= Repr && x.NodeOk()
      {
        assert old(x.NodeOk());
      }
    }
  }
}
