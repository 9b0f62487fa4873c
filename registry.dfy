/**
  The scoped action registry (src/service/event_action_registry.py): a map
  from scope to a map from action name to handler, changed in place by
  `register` and `unregister`. Handlers are values of an opaque type H.
*/
module Registry {
  import opened Wrappers
  import opened Dicts

  /** An attribute found on an extension module: a callable handler or some other value. */
  datatype Attribute<H> = Callable(name: string, handler: H) | Plain(name: string)

  /** An extension module: its name (the scope of its actions) and its attributes. */
  datatype ExtModule<H> = ExtModule(name: string, attributes: seq<Attribute<H>>)

  /** The filter of `load_from_ext`: callable, and the name does not start with "_". */
  predicate IsPublicCallable<H>(a: Attribute<H>) {
    a.Callable? && !(|a.name| > 0 && a.name[0] == '_')
  }

  /** The registry after removing one registered entry; the scope stays, possibly empty. */
  function Unregistered<H>(reg: map<string, map<string, H>>, scope: string, name: string)
    : (r: map<string, map<string, H>>)
    requires scope in reg && name in reg[scope]
    ensures forall s :: s in r <==> s in reg
    ensures name !in r[scope]
    ensures forall s, n :: s in r && n in r[s] <==> s in reg && n in reg[s] && (s != scope || n != name)
    ensures forall s, n :: s in r && n in r[s] ==> r[s][n] == reg[s][n]
  {
    reg[scope := reg[scope] - {name}]
  }

  /** The registry after registering every public callable of one module under the module's name. */
  function LoadModule<H>(reg: map<string, map<string, H>>, m: ExtModule<H>): map<string, map<string, H>>
    decreases |m.attributes|
  {
    if m.attributes == [] then reg
    else
      var n := |m.attributes| - 1;
      var before := LoadModule(reg, ExtModule(m.name, m.attributes[..n]));
      var a := m.attributes[n];
      if IsPublicCallable(a) then PutNested(before, m.name, a.name, a.handler) else before
  }

  /** The registry after loading every module in order. */
  function LoadAll<H>(reg: map<string, map<string, H>>, modules: seq<ExtModule<H>>): map<string, map<string, H>>
  {
    if modules == [] then reg
    else LoadModule(LoadAll(reg, modules[..|modules| - 1]), modules[|modules| - 1])
  }

  /** Some module of that name exports a public callable of that name. */
  ghost predicate Exported<H>(modules: seq<ExtModule<H>>, scope: string, name: string) {
    exists i, j :: 0 <= i < |modules| && 0 <= j < |modules[i].attributes| &&
                   modules[i].name == scope && modules[i].attributes[j].name == name &&
                   IsPublicCallable(modules[i].attributes[j])
  }

  /** Loading one module adds exactly its public callables, under its own name. */
  lemma {:induction false} LoadModuleEntries<H>(reg: map<string, map<string, H>>, m: ExtModule<H>, s: string, n: string)
    ensures var r := LoadModule(reg, m);
            (s in r && n in r[s]) <==>
            (s in reg && n in reg[s]) ||
            (s == m.name && exists j :: 0 <= j < |m.attributes| && m.attributes[j].name == n && IsPublicCallable(m.attributes[j]))
    decreases |m.attributes|
  {
    if m.attributes != [] {
      var k := |m.attributes| - 1;
      var init := ExtModule(m.name, m.attributes[..k]);
      LoadModuleEntries(reg, init, s, n);
      if s == m.name && exists j :: 0 <= j < |m.attributes| && m.attributes[j].name == n && IsPublicCallable(m.attributes[j]) {
        var j :| 0 <= j < |m.attributes| && m.attributes[j].name == n && IsPublicCallable(m.attributes[j]);
        if j < k {
          assert init.attributes[j] == m.attributes[j];
        }
      }
      if s == m.name && exists j :: 0 <= j < k && init.attributes[j].name == n && IsPublicCallable(init.attributes[j]) {
        var j :| 0 <= j < k && init.attributes[j].name == n && IsPublicCallable(init.attributes[j]);
        assert m.attributes[j] == init.attributes[j];
      }
    }
  }

  /**
    Starting from an empty registry, loading registers an action exactly when
    some module of the scope's name exports a public callable of that name.
  */
  lemma {:induction false} LoadAllEntries<H>(modules: seq<ExtModule<H>>, s: string, n: string)
    ensures var r := LoadAll(map[], modules);
            (s in r && n in r[s]) <==> Exported(modules, s, n)
  {
    if modules != [] {
      var k := |modules| - 1;
      var init := modules[..k];
      LoadAllEntries(init, s, n);
      var m := modules[k];
      LoadModuleEntries(LoadAll(map[], init), m, s, n);
      if Exported(modules, s, n) {
        var i, j :| 0 <= i < |modules| && 0 <= j < |modules[i].attributes| &&
                    modules[i].name == s && modules[i].attributes[j].name == n &&
                    IsPublicCallable(modules[i].attributes[j]);
        if i < k {
          assert init[i] == modules[i];
        }
      }
      if Exported(init, s, n) {
        var i, j :| 0 <= i < k && 0 <= j < |init[i].attributes| &&
                    init[i].name == s && init[i].attributes[j].name == n &&
                    IsPublicCallable(init[i].attributes[j]);
        assert modules[i] == init[i];
      }
    }
  }

  /** The module has a public callable of that name. */
  ghost predicate Exports<H>(m: ExtModule<H>, name: string) {
    exists j :: 0 <= j < |m.attributes| && m.attributes[j].name == name && IsPublicCallable(m.attributes[j])
  }

  /** Attribute `j` is the last public callable of that name. */
  ghost predicate IsLastExport<H>(attrs: seq<Attribute<H>>, name: string, j: int) {
    && 0 <= j < |attrs| && attrs[j].name == name && IsPublicCallable(attrs[j])
    && forall k :: j < k < |attrs| ==> !(attrs[k].name == name && IsPublicCallable(attrs[k]))
  }

  /**
    After loading one module, a name it exports holds the handler of its last
    public callable of that name (a later attribute overwrites an earlier
    one); every other entry keeps the handler it had.
  */
  lemma {:induction false} LoadModuleValues<H>(reg: map<string, map<string, H>>, m: ExtModule<H>, s: string, n: string)
    requires s in LoadModule(reg, m) && n in LoadModule(reg, m)[s]
    ensures !(s == m.name && Exports(m, n)) ==> s in reg && n in reg[s] && LoadModule(reg, m)[s][n] == reg[s][n]
    ensures forall j :: s == m.name && IsLastExport(m.attributes, n, j) ==> LoadModule(reg, m)[s][n] == m.attributes[j].handler
    decreases |m.attributes|
  {
    if m.attributes != [] {
      var k := |m.attributes| - 1;
      var init := ExtModule(m.name, m.attributes[..k]);
      var before := LoadModule(reg, init);
      var a := m.attributes[k];
      assert forall j :: 0 <= j < k ==> init.attributes[j] == m.attributes[j];
      if IsPublicCallable(a) && s == m.name && n == a.name {
        forall j | IsLastExport(m.attributes, n, j)
          ensures j == k
        {
        }
      } else {
        assert s in before && n in before[s] && LoadModule(reg, m)[s][n] == before[s][n];
        LoadModuleValues(reg, init, s, n);
        if s == m.name && Exports(init, n) {
          var j :| 0 <= j < k && init.attributes[j].name == n && IsPublicCallable(init.attributes[j]);
          assert m.attributes[j] == init.attributes[j];
        }
        forall j | s == m.name && IsLastExport(m.attributes, n, j)
          ensures IsLastExport(init.attributes, n, j)
        {
          assert j != k;
        }
      }
    }
  }

  lemma LastExportIsExport<H>(m: ExtModule<H>, n: string, j: int)
    requires IsLastExport(m.attributes, n, j)
    ensures Exports(m, n)
  {
  }

  /** Module `i`'s attribute `j` is, in load order, the last public callable of that scope and name. */
  ghost predicate IsLastLoaded<H>(modules: seq<ExtModule<H>>, scope: string, name: string, i: int, j: int) {
    && 0 <= i < |modules| && modules[i].name == scope && IsLastExport(modules[i].attributes, name, j)
    && forall k :: i < k < |modules| ==> !(modules[k].name == scope && Exports(modules[k], name))
  }

  /** When the last module does not export the name, the last export lies in the modules before it. */
  lemma LastLoadedInPrefix<H>(modules: seq<ExtModule<H>>, s: string, n: string, i: int, j: int)
    requires IsLastLoaded(modules, s, n, i, j)
    requires !(modules[|modules| - 1].name == s && Exports(modules[|modules| - 1], n))
    ensures IsLastLoaded(modules[..|modules| - 1], s, n, i, j)
  {
    LastExportIsExport(modules[i], n, j);
    assert i != |modules| - 1;
  }

  /**
    After loading, an exported name holds the handler of the last public
    callable of that scope and name in load order; an entry no module exports
    keeps the handler it had.
  */
  lemma {:induction false} LoadAllValues<H>(reg: map<string, map<string, H>>, modules: seq<ExtModule<H>>, s: string, n: string)
    requires s in LoadAll(reg, modules) && n in LoadAll(reg, modules)[s]
    ensures !Exported(modules, s, n) ==> s in reg && n in reg[s] && LoadAll(reg, modules)[s][n] == reg[s][n]
    ensures forall i, j :: IsLastLoaded(modules, s, n, i, j) ==> LoadAll(reg, modules)[s][n] == modules[i].attributes[j].handler
  {
    if modules != [] {
      var k := |modules| - 1;
      var init := modules[..k];
      var mid := LoadAll(reg, init);
      var m := modules[k];
      assert forall i :: 0 <= i < k ==> init[i] == modules[i];
      LoadModuleValues(mid, m, s, n);
      if s == m.name && Exports(m, n) {
        var j :| 0 <= j < |m.attributes| && m.attributes[j].name == n && IsPublicCallable(m.attributes[j]);
        assert modules[k].attributes[j] == m.attributes[j];
        forall i, j' | IsLastLoaded(modules, s, n, i, j')
          ensures i == k
        {
        }
      } else {
        LoadAllValues(reg, init, s, n);
        if Exported(init, s, n) {
          var i, j :| 0 <= i < k && 0 <= j < |init[i].attributes| &&
                      init[i].name == s && init[i].attributes[j].name == n &&
                      IsPublicCallable(init[i].attributes[j]);
          assert modules[i] == init[i];
        }
        forall i, j | IsLastLoaded(modules, s, n, i, j)
          ensures IsLastLoaded(init, s, n, i, j)
        {
          LastLoadedInPrefix(modules, s, n, i, j);
        }
      }
    }
  }

  /** `EventActionRegistry`, over the extension modules handed to it. */
  class EventActionRegistry<H> {
    var registry: map<string, map<string, H>>

    /** `__init__`: start empty, then load the extension modules. */
    constructor (modules: seq<ExtModule<H>>)
      ensures registry == LoadAll(map[], modules)
    {
      registry := map[];
      new;
      LoadFromExt(modules);
    }

    /** `load_from_ext`: every public callable of every module, under the module's name. */
    method LoadFromExt(modules: seq<ExtModule<H>>)
      modifies this`registry
      ensures registry == LoadAll(old(registry), modules)
    {
      var i := 0;
      while i < |modules|
        invariant 0 <= i <= |modules|
        invariant registry == LoadAll(old(registry), modules[..i])
      {
        var m := modules[i];
        var before := registry;
        var j := 0;
        while j < |m.attributes|
          invariant 0 <= j <= |m.attributes|
          invariant registry == LoadModule(before, ExtModule(m.name, m.attributes[..j]))
        {
          var a := m.attributes[j];
          assert m.attributes[..j + 1][..j] == m.attributes[..j];
          if IsPublicCallable(a) {
            Register(m.name, a.name, a.handler);
          }
          j := j + 1;
        }
        assert m.attributes[..j] == m.attributes;
        assert modules[..i + 1][..i] == modules[..i];
        i := i + 1;
      }
      assert modules[..i] == modules;
    }

    /** `register`: creates the scope when missing and overwrites the entry. */
    method Register(scope: string, name: string, handler: H)
      modifies this`registry
      ensures registry == PutNested(old(registry), scope, name, handler)
    {
      if scope !in registry {
        registry := registry[scope := map[]];
      }
      registry := registry[scope := registry[scope][name := handler]];
    }

    /** `get_action`: the handler, or None for an unknown scope or name. */
    function GetAction(scope: string, name: string): (r: Option<H>)
      reads this`registry
      ensures r.Some? <==> scope in registry && name in registry[scope]
      ensures r.Some? ==> r.value == registry[scope][name]
    {
      if scope in registry && name in registry[scope] then Some(registry[scope][name]) else None
    }

    /** `unregister`: removes the entry, or raises KeyError when it is not registered. */
    method Unregister(scope: string, name: string) returns (r: Outcome<string>)
      modifies this`registry
      ensures r.Pass? <==> old(scope in registry && name in registry[scope])
      ensures r.Pass? ==> registry == Unregistered(old(registry), scope, name)
      ensures r.Fail? ==> registry == old(registry) &&
                          r.error == "No action registered for name: " + name + " under scope: " + scope
    {
      if scope in registry {
        var actions := registry[scope];
        if name in actions {
          registry := registry[scope := actions - {name}];
          return Pass;
        }
      }
      r := Fail("No action registered for name: " + name + " under scope: " + scope);
    }

    /**
      The actions of one scope, as the agent's filter asks for them: the
      scope's inner map, or an empty map for an unknown scope.
    */
    function ActionsInScope(scope: string): (r: map<string, H>)
      reads this`registry
      ensures forall n :: n in r <==> GetAction(scope, n).Some?
      ensures forall n :: n in r ==> GetAction(scope, n) == Some(r[n])
    {
      if scope in registry then registry[scope] else map[]
    }
  }
}
