/**
 * The `depends` operation shared by routers and endpoints: an append-only
 * list of the plugins a REST route needs.
 */
module PluginDepends {
  import opened Values

  /** The `string|array $plugins` argument of `depends`. */
  datatype PluginArg = One(name: string) | Many(names: seq<string>)

  /** The plugins an argument names, in order: a single string becomes a one-element list. */
  function Names(arg: PluginArg): seq<string>
  {
    match arg
    case One(name) => [name]
    case Many(names) => names
  }

  /** The list after `depends`: the current list (null read as empty) followed by the new plugins. */
  function AppendPlugins(current: Option<seq<string>>, arg: PluginArg): (r: seq<string>)
    ensures |r| == (if current.Some? then |current.value| else 0) + |Names(arg)|
    ensures current.Some? ==> r[..|current.value|] == current.value
    ensures r[|r| - |Names(arg)|..] == Names(arg)
  {
    (if current.Some? then current.value else []) + Names(arg)
  }

  /** Two calls append like one call with both lists, order kept and duplicates not removed. */
  lemma DependsTwice(current: Option<seq<string>>, a: seq<string>, b: seq<string>)
    ensures AppendPlugins(Some(AppendPlugins(current, Many(a))), Many(b)) == AppendPlugins(current, Many(a + b))
  {
    var base := if current.Some? then current.value else [];
    assert (base + a) + b == base + (a + b);
  }

  /** Naming a plugin twice keeps both copies. */
  lemma DuplicatesKept(current: Option<seq<string>>, name: string)
    ensures var r := AppendPlugins(Some(AppendPlugins(current, One(name))), One(name));
            |r| >= 2 && r[|r| - 1] == name && r[|r| - 2] == name
  {
  }

  /** An object using the plugin-dependency trait. */
  class PluginDependent {
    var plugins: Option<seq<string>>

    constructor ()
      ensures plugins == None
    {
      plugins := None;
    }

    /** `depends`: appends and returns the same object. */
    method Depends(arg: PluginArg) returns (self: PluginDependent)
      modifies this
      ensures plugins == Some(AppendPlugins(old(plugins), arg))
      ensures self == this
    {
      plugins := Some(AppendPlugins(plugins, arg));
      self := this;
    }
  }
}
