/**
 * What `scanModulesForDependencies` registers, module by module and for a
 * whole scan: each module's record gains its imports, providers,
 * controllers, enhancers and exports; nothing else changes; and the
 * container's log receives exactly one call per declared member, and one
 * `addModule` call per reference discovery visits.
 */
module ScanRegistration {
  import opened Wrappers
  import opened OrderedMaps
  import opened Descriptors
  import opened Metadata
  import opened Container
  import opened AppConfig
  import opened ScannerSpec
  import opened ScannerProperties
  import opened Registration

  // ---- one iteration of scanModulesForDependencies ----

  /**
   * From `before` to `after`, one module's record gains exactly what `d`
   * declares: the imported classes that are modules of `g`, the stored
   * providers under their keys (`n` fresh keys assigned before, the last
   * provider put under a key holding it), the controllers as routes, the
   * enhancers of providers and controllers as injectables, and the exports.
   */
  ghost predicate RecordRegistered(g: Graph, before: ModuleRecord, after: ModuleRecord, refl: Reflection, d: ModuleDescriptor, n: nat, keyGen: nat -> Token) {
    && (forall x :: x in after.imports <==> x in before.imports || (x in g.modules.vals && ImportedAs(d.imports, x)))
    && ProvidersAdded(before.providers, after.providers, ProviderKeys(d.providers, n, keyGen), StoredProviders(d.providers, n, keyGen))
    && ClassesAdded(before.routes, after.routes, d.controllers)
    && ClassesAdded(before.injectables, after.injectables, ProviderEnhancers(refl, d.providers) + ControllerEnhancers(refl, d.controllers))
    && after.exports == before.exports + set e | e in d.exports
  }

  /**
   * From `st` to `r`, module `token` is registered as `d` declares: its
   * record as `RecordRegistered` says, one apply entry per global provider,
   * every other module unchanged, and one call per declared member.
   */
  ghost predicate ModuleRegistered(st: ScanState, r: ScanState, refl: Reflection, d: ModuleDescriptor, token: Token, keyGen: nat -> Token) {
    && token in st.graph.modules.vals
    && r.applyMap == st.applyMap + GlobalEntries(GlobalsOf(d.providers), token, |st.applyMap|, keyGen)
    && OthersKept(st.graph, r.graph, token)
    && RecordRegistered(st.graph, st.graph.modules.vals[token], r.graph.modules.vals[token], refl, d, |st.applyMap|, keyGen)
    && LogGrows(st.graph, r.graph, 0, |d.imports|, |d.providers|, |d.controllers|, |d.exports|)
  }

  /** One successful iteration for `token` registers its descriptor. */
  lemma ModuleRegisters(u: Universe, refl: Reflection, st: ScanState, token: Token, keyGen: nat -> Token)
    requires token in st.graph.modules.vals
    ensures var res := ModuleDependenciesStored(u, refl, st, token, keyGen);
      res.Success? ==> ModuleRegistered(st, res.value, refl, DescriptorOf(u, token), token, keyGen)
  {
    var d := DescriptorOf(u, token);
    var res := ModuleDependenciesStored(u, refl, st, token, keyGen);
    if res.Success? {
      var g1 := RelatedModulesStored(st.graph, d.imports, token).value;
      RelatedModulesRegister(st.graph, d.imports, token);
      var st1 := st.(graph := g1);
      var st2 := ProvidersStored(st1, refl, d.providers, token, keyGen);
      ProvidersRegister(st1, refl, d.providers, token, keyGen);
      var g3 := ControllersStored(st2.graph, refl, d.controllers, token);
      ControllersRegister(st2.graph, refl, d.controllers, token);
      var g4 := ExportsStored(g3, d.exports, token);
      ExportsLogged(g3, d.exports, token);
      ModuleDependenciesSteps(u, refl, st, token, keyGen, g1, st2, g3);
      ModuleStep(st, g1, st2, g3, g4, refl, d, token, keyGen);
    }
  }

  lemma ModuleStep(st: ScanState, g1: Graph, st2: ScanState, g3: Graph, g4: Graph, refl: Reflection, d: ModuleDescriptor, token: Token, keyGen: nat -> Token)
    requires token in st.graph.modules.vals
    requires ImportsRegistered(st.graph, g1, d.imports, token) && LogGrows(st.graph, g1, 0, |d.imports|, 0, 0, 0)
    requires ProvidersRegistered(st.(graph := g1), st2, refl, d.providers, token, keyGen)
    requires LogGrows(g1, st2.graph, 0, 0, |d.providers|, 0, 0)
    requires ControllersRegistered(st2.graph, g3, refl, d.controllers, token)
    requires LogGrows(st2.graph, g3, 0, 0, 0, |d.controllers|, 0)
    requires OthersKept(g3, g4, token) && LogGrows(g3, g4, 0, 0, 0, 0, |d.exports|)
    requires token in g3.modules.vals
    requires var before, after := g3.modules.vals[token], g4.modules.vals[token];
      after == before.(exports := after.exports) && after.exports == before.exports + set e | e in d.exports
    ensures ModuleRegistered(st, ScanState(g4, st2.applyMap), refl, d, token, keyGen)
  {
    ModuleLogStep(st.graph, g1, st2.graph, g3, g4, d);
    ModuleKeptStep(st.graph, g1, st2.graph, g3, g4, token);
    var ms := st.graph.modules.vals;
    RecordStep(st.graph, ms[token], g1.modules.vals[token], st2.graph.modules.vals[token], g3.modules.vals[token], g4.modules.vals[token],
      refl, d, |st.applyMap|, keyGen);
  }

  /** The calls of the four steps of one iteration add up. */
  lemma ModuleLogStep(g: Graph, g1: Graph, g2: Graph, g3: Graph, g4: Graph, d: ModuleDescriptor)
    requires LogGrows(g, g1, 0, |d.imports|, 0, 0, 0) && LogGrows(g1, g2, 0, 0, |d.providers|, 0, 0)
    requires LogGrows(g2, g3, 0, 0, 0, |d.controllers|, 0) && LogGrows(g3, g4, 0, 0, 0, 0, |d.exports|)
    ensures LogGrows(g, g4, 0, |d.imports|, |d.providers|, |d.controllers|, |d.exports|)
  {
    LogGrowsTrans(g, g1, g2, 0, |d.imports|, 0, 0, 0, 0, 0, |d.providers|, 0, 0);
    LogGrowsTrans(g, g2, g3, 0, |d.imports|, |d.providers|, 0, 0, 0, 0, 0, |d.controllers|, 0);
    LogGrowsTrans(g, g3, g4, 0, |d.imports|, |d.providers|, |d.controllers|, 0, 0, 0, 0, 0, |d.exports|);
  }

  lemma ModuleKeptStep(g: Graph, g1: Graph, g2: Graph, g3: Graph, g4: Graph, token: Token)
    requires OthersKept(g, g1, token) && OthersKept(g1, g2, token) && OthersKept(g2, g3, token) && OthersKept(g3, g4, token)
    ensures OthersKept(g, g4, token)
  {
    OthersKeptTrans(g, g1, g2, token);
    OthersKeptTrans(g, g2, g3, token);
    OthersKeptTrans(g, g3, g4, token);
  }

  /** The four steps of one iteration, on the module's record, make one `RecordRegistered`. */
  lemma RecordStep(g: Graph, b: ModuleRecord, m1: ModuleRecord, m2: ModuleRecord, m3: ModuleRecord, a: ModuleRecord,
                   refl: Reflection, d: ModuleDescriptor, n: nat, keyGen: nat -> Token)
    requires m1 == b.(imports := m1.imports)
    requires forall x :: x in m1.imports <==> x in b.imports || (x in g.modules.vals && ImportedAs(d.imports, x))
    requires ProvidersRecord(m1, m2, refl, d.providers, n, keyGen)
    requires m3 == m2.(routes := m3.routes, injectables := m3.injectables)
    requires ClassesAdded(m2.routes, m3.routes, d.controllers)
    requires ClassesAdded(m2.injectables, m3.injectables, ControllerEnhancers(refl, d.controllers))
    requires a == m3.(exports := a.exports) && a.exports == m3.exports + set e | e in d.exports
    ensures RecordRegistered(g, b, a, refl, d, n, keyGen)
  {
    ClassesAddedJoin(m1.injectables, m2.injectables, m3.injectables, ProviderEnhancers(refl, d.providers), ControllerEnhancers(refl, d.controllers));
  }

  // ---- what a registered module holds ----

  /**
   * Module record `rec` holds what `d` declares: each import that names a
   * module of `g`, each provider that is not global under its own token,
   * each controller as a route with a fresh wrapper, each enhancer as an
   * injectable with a fresh wrapper, and each export.
   */
  ghost predicate HoldsDeclared(g: Graph, rec: ModuleRecord, refl: Reflection, d: ModuleDescriptor) {
    && (forall i :: 0 <= i < |d.imports| && Resolve(d.imports[i]).Some? && Resolve(d.imports[i]).value in g.modules.vals ==>
         Resolve(d.imports[i]).value in rec.imports)
    && (forall p :: p in d.providers && !IsGlobal(p) ==> ProviderToken(p) in rec.providers.vals)
    && (forall c :: c in d.controllers ==> c in rec.routes.vals && rec.routes.vals[c] == NewWrapper(ClassProvider(c)))
    && (forall x :: x in ProviderEnhancers(refl, d.providers) + ControllerEnhancers(refl, d.controllers) ==>
         x in rec.injectables.vals && rec.injectables.vals[x] == NewWrapper(ClassProvider(x)))
    && (forall e :: e in d.exports ==> e in rec.exports)
  }

  /** A record registered from `d` holds what `d` declares. */
  lemma RecordHolds(g: Graph, b: ModuleRecord, a: ModuleRecord, refl: Reflection, d: ModuleDescriptor, n: nat, keyGen: nat -> Token)
    requires RecordRegistered(g, b, a, refl, d, n, keyGen)
    ensures HoldsDeclared(g, a, refl, d)
  {
    ProviderKeysExactly(d.providers, n, keyGen);
    forall i | 0 <= i < |d.imports| && Resolve(d.imports[i]).Some? && Resolve(d.imports[i]).value in g.modules.vals
      ensures Resolve(d.imports[i]).value in a.imports
    {
      assert ImportedAs(d.imports, Resolve(d.imports[i]).value);
    }
  }

  // ---- scanModulesForDependencies over the stored modules ----

  /** The members every module of `tokens` declares, module after module. */
  function Declared(u: Universe, tokens: seq<Token>): ModuleDescriptor
    decreases |tokens|
  {
    if tokens == [] then ModuleDescriptor([], [], [], [])
    else
      var d, rest := DescriptorOf(u, tokens[0]), Declared(u, tokens[1..]);
      ModuleDescriptor(d.imports + rest.imports, d.providers + rest.providers, d.controllers + rest.controllers, d.exports + rest.exports)
  }

  /**
   * The loop over distinct stored modules: afterwards each listed module
   * holds what it declares, every other module keeps its record, and the
   * log gains one call per declared member of the listed modules.
   */
  lemma {:induction false} DependenciesRegister(u: Universe, refl: Reflection, st: ScanState, tokens: seq<Token>, keyGen: nat -> Token)
    requires Distinct(tokens)
    requires forall t :: t in tokens ==> t in st.graph.modules.vals
    ensures var res := DependenciesStored(u, refl, st, tokens, keyGen);
      res.Success? ==>
        var r, all := res.value.graph, Declared(u, tokens);
        && (forall m :: m in tokens ==> HoldsDeclared(r, r.modules.vals[m], refl, DescriptorOf(u, m)))
        && (forall m :: m in st.graph.modules.vals && m !in tokens ==> r.modules.vals[m] == st.graph.modules.vals[m])
        && LogGrows(st.graph, r, 0, |all.imports|, |all.providers|, |all.controllers|, |all.exports|)
    decreases |tokens|
  {
    var res := DependenciesStored(u, refl, st, tokens, keyGen);
    if tokens != [] && res.Success? {
      var t, rest := tokens[0], tokens[1..];
      var st1 := ModuleDependenciesStored(u, refl, st, t, keyGen).value;
      assert forall m :: m in rest ==> m in tokens;
      DistinctTail(tokens);
      ModuleRegisters(u, refl, st, t, keyGen);
      DependenciesRegister(u, refl, st1, rest, keyGen);
      DependenciesStep(u, refl, st, st1, res.value, tokens, keyGen);
    }
  }

  lemma DependenciesStep(u: Universe, refl: Reflection, st: ScanState, st1: ScanState, r: ScanState, tokens: seq<Token>, keyGen: nat -> Token)
    requires tokens != [] && tokens[0] !in tokens[1..]
    requires ModuleRegistered(st, st1, refl, DescriptorOf(u, tokens[0]), tokens[0], keyGen)
    requires forall t :: t in tokens ==> t in st.graph.modules.vals
    requires SameModules(st1.graph, r.graph)
    requires forall m :: m in tokens[1..] ==> HoldsDeclared(r.graph, r.graph.modules.vals[m], refl, DescriptorOf(u, m))
    requires forall m :: m in st1.graph.modules.vals && m !in tokens[1..] ==> r.graph.modules.vals[m] == st1.graph.modules.vals[m]
    requires var rest := Declared(u, tokens[1..]);
      LogGrows(st1.graph, r.graph, 0, |rest.imports|, |rest.providers|, |rest.controllers|, |rest.exports|)
    ensures forall m :: m in tokens ==> HoldsDeclared(r.graph, r.graph.modules.vals[m], refl, DescriptorOf(u, m))
    ensures forall m :: m in st.graph.modules.vals && m !in tokens ==> r.graph.modules.vals[m] == st.graph.modules.vals[m]
    ensures var all := Declared(u, tokens);
      LogGrows(st.graph, r.graph, 0, |all.imports|, |all.providers|, |all.controllers|, |all.exports|)
  {
    var t, d, rest := tokens[0], DescriptorOf(u, tokens[0]), Declared(u, tokens[1..]);
    LogGrowsTrans(st.graph, st1.graph, r.graph, 0, |d.imports|, |d.providers|, |d.controllers|, |d.exports|,
      0, |rest.imports|, |rest.providers|, |rest.controllers|, |rest.exports|);
    RecordHolds(st.graph, st.graph.modules.vals[t], st1.graph.modules.vals[t], refl, d, |st.applyMap|, keyGen);
    HoldsKept(st.graph, r.graph, st1.graph.modules.vals[t], refl, d);
    assert forall m :: m in tokens <==> m == t || m in tokens[1..];
  }

  /** What a record holds depends on the graph only through which modules it has. */
  lemma HoldsKept(g: Graph, g': Graph, rec: ModuleRecord, refl: Reflection, d: ModuleDescriptor)
    requires HoldsDeclared(g, rec, refl, d) && g'.modules.vals.Keys == g.modules.vals.Keys
    ensures HoldsDeclared(g', rec, refl, d)
  {
    assert forall x :: x in g'.modules.vals <==> x in g.modules.vals;
  }

  // ---- discovery logs one addModule call per visited reference ----

  lemma DiffSplit<T>(a: set<T>, b: set<T>, c: set<T>)
    requires a <= b <= c
    ensures |c - a| == |c - b| + |b - a|
  {
    assert c - a == (c - b) + (b - a);
    assert (c - b) * (b - a) == {};
  }

  /** Discovery from a reference not yet visited logs one `addModule` call per reference it adds to the registry. */
  lemma {:induction false} DiscoveryLogs(u: Universe, g: Graph, r: ModuleRef, visited: set<ModuleRef>)
    requires r !in visited
    ensures var res := ScanForModules(u, g, r, visited);
      res.Success? ==> LogGrows(g, res.value.graph, |res.value.registry - visited|, 0, 0, 0, 0)
    decreases VisitMeasure(u, r, visited), 0, 0
  {
    var res := ScanForModules(u, g, r, visited);
    if res.Success? {
      var cls := Resolve(r).value;
      var g1 := ModuleAdded(g, cls);
      ScanForModulesUnfold(u, g, r, visited);
      VisitDecreases(u, r, visited);
      LogStep(g, g1, AddModuleCall(cls));
      ImportsLog(u, g1, cls, 0, visited + {r});
      DiffSplit(visited, visited + {r}, res.value.registry);
      assert |(visited + {r}) - visited| == 1 by {
        assert (visited + {r}) - visited == {r};
      }
      LogGrowsTrans(g, g1, res.value.graph, 1, 0, 0, 0, 0, |res.value.registry - (visited + {r})|, 0, 0, 0, 0);
    }
  }

  /** The import loop logs one `addModule` call per reference it adds to the registry. */
  lemma {:induction false} ImportsLog(u: Universe, g: Graph, cls: Token, i: nat, visited: set<ModuleRef>)
    requires i <= |DescriptorOf(u, cls).imports|
    ensures var res := ScanImports(u, g, cls, i, visited);
      res.Success? ==> LogGrows(g, res.value.graph, |res.value.registry - visited|, 0, 0, 0, 0)
    decreases Pending(u, visited), 1, |DescriptorOf(u, cls).imports| - i
  {
    var imports := DescriptorOf(u, cls).imports;
    var res := ScanImports(u, g, cls, i, visited);
    if res.Success? {
      if i == |imports| {
        assert res.value.registry - visited == {};
      } else {
        ScanImportsStep(u, g, cls, i, visited);
        var r := imports[i];
        if r in visited {
          ImportsLog(u, g, cls, i + 1, visited);
        } else {
          assert VisitMeasure(u, r, visited) == Pending(u, visited);
          var d := ScanForModules(u, g, r, visited).value;
          DiscoveryLogs(u, g, r, visited);
          DiffShrinks(ImportRefs(u), visited, d.registry);
          ImportsLog(u, d.graph, cls, i + 1, d.registry);
          DiffSplit(visited, d.registry, res.value.registry);
          LogGrowsTrans(g, d.graph, res.value.graph, |d.registry - visited|, 0, 0, 0, 0, |res.value.registry - d.registry|, 0, 0, 0, 0);
        }
      }
    }
  }

  // ---- a whole scan ----

  /** Reference `x` names a module of `g` whose record lists every import of its class. */
  ghost predicate ImportsLinked(u: Universe, g: Graph, x: ModuleRef) {
    && Resolve(x).Some?
    && Resolve(x).value in g.modules.vals
    && var cls := Resolve(x).value;
       forall j :: 0 <= j < |DescriptorOf(u, cls).imports| ==>
         && Resolve(DescriptorOf(u, cls).imports[j]).Some?
         && Resolve(DescriptorOf(u, cls).imports[j]).value in g.modules.vals[cls].imports
  }

  /**
   * `scan(module)`: after a successful scan every stored module holds what
   * its descriptor declares, and every reference discovery visited names a
   * module whose record lists each of its imports.
   */
  lemma ScanRegisters(u: Universe, refl: Reflection, st: ScanState, root: ModuleRef, keyGen: nat -> Token)
    requires GraphValid(st.graph)
    ensures var res := Scan(u, refl, st, root, keyGen);
      res.Success? ==>
        var d, r := ScanForModules(u, st.graph, root, {}).value, res.value.graph;
        && (forall m :: m in r.modules.vals ==> HoldsDeclared(r, r.modules.vals[m], refl, DescriptorOf(u, m)))
        && (forall x :: x in d.registry ==> ImportsLinked(u, r, x))
  {
    var dr := ScanForModules(u, st.graph, root, {});
    var res := Scan(u, refl, st, root, keyGen);
    if res.Success? {
      var d := dr.value;
      DiscoveryGrows(u, st.graph, root, {});
      DiscoveryComplete(u, st.graph, root);
      DistinctKeys(d.graph);
      DependenciesRegister(u, refl, st.(graph := d.graph), d.graph.modules.keys, keyGen);
      var r := res.value.graph;
      ScanHolds(u, refl, d.graph, r);
      forall x | x in d.registry ensures ImportsLinked(u, r, x) {
        ScanLinked(u, refl, d, r, x);
      }
    }
  }

  /**
   * `scan(module)` logs one `addModule` call per reference discovery visits,
   * and one call per declared import, provider, controller and export of
   * the stored modules.
   */
  lemma ScanLogs(u: Universe, refl: Reflection, st: ScanState, root: ModuleRef, keyGen: nat -> Token)
    requires GraphValid(st.graph)
    ensures var res := Scan(u, refl, st, root, keyGen);
      res.Success? ==>
        var d := ScanForModules(u, st.graph, root, {}).value;
        var all := Declared(u, d.graph.modules.keys);
        LogGrows(st.graph, res.value.graph, |d.registry|, |all.imports|, |all.providers|, |all.controllers|, |all.exports|)
  {
    var dr := ScanForModules(u, st.graph, root, {});
    var res := Scan(u, refl, st, root, keyGen);
    if res.Success? {
      var d := dr.value;
      DiscoveryGrows(u, st.graph, root, {});
      DiscoveryLogs(u, st.graph, root, {});
      DistinctKeys(d.graph);
      DependenciesRegister(u, refl, st.(graph := d.graph), d.graph.modules.keys, keyGen);
      ScanLog(st.graph, d, res.value.graph, Declared(u, d.graph.modules.keys));
    }
  }

  /** Discovery's `addModule` calls, then the members' calls. */
  lemma ScanLog(g0: Graph, d: Discovery, r: Graph, all: ModuleDescriptor)
    requires LogGrows(g0, d.graph, |d.registry - {}|, 0, 0, 0, 0)
    requires LogGrows(d.graph, r, 0, |all.imports|, |all.providers|, |all.controllers|, |all.exports|)
    ensures LogGrows(g0, r, |d.registry|, |all.imports|, |all.providers|, |all.controllers|, |all.exports|)
  {
    assert d.registry - {} == d.registry;
    LogGrowsTrans(g0, d.graph, r, |d.registry|, 0, 0, 0, 0, 0, |all.imports|, |all.providers|, |all.controllers|, |all.exports|);
  }

  /** Every module of a valid graph is one of its keys. */
  lemma ScanHolds(u: Universe, refl: Reflection, g: Graph, r: Graph)
    requires GraphValid(g) && SameModules(g, r)
    requires forall m :: m in g.modules.keys ==> HoldsDeclared(r, r.modules.vals[m], refl, DescriptorOf(u, m))
    ensures forall m :: m in r.modules.vals ==> HoldsDeclared(r, r.modules.vals[m], refl, DescriptorOf(u, m))
  {
    forall m | m in r.modules.vals ensures HoldsDeclared(r, r.modules.vals[m], refl, DescriptorOf(u, m)) {
      assert m in g.modules.keys;
    }
  }

  /** A visited reference whose imports are all visited is linked to each of them. */
  lemma ScanLinked(u: Universe, refl: Reflection, d: Discovery, r: Graph, x: ModuleRef)
    requires x in d.registry && ClosedOver(u, d.registry, d.registry, d.graph)
    requires SameModules(d.graph, r)
    requires GraphValid(d.graph)
    requires forall m :: m in d.graph.modules.keys ==> HoldsDeclared(r, r.modules.vals[m], refl, DescriptorOf(u, m))
    ensures ImportsLinked(u, r, x)
  {
    var cls := Resolve(x).value;
    var imports := DescriptorOf(u, cls).imports;
    assert cls in d.graph.modules.keys;
    var h := r.modules.vals[cls];
    assert HoldsDeclared(r, h, refl, DescriptorOf(u, cls));
    forall j | 0 <= j < |imports|
      ensures Resolve(imports[j]).Some? && Resolve(imports[j]).value in h.imports
    {
      assert imports[j] in d.registry;
    }
  }

  // ---- the apply map a scan leaves ----

  /** Every module of `g` is still in `g'`, with at least the provider keys it had. */
  ghost predicate ProviderKeysKept(g: Graph, g': Graph) {
    forall m :: m in g.modules.vals ==>
      m in g'.modules.vals && g.modules.vals[m].providers.vals.Keys <= g'.modules.vals[m].providers.vals.Keys
  }

  lemma AllResolveKept(g: Graph, g': Graph, entries: seq<ApplyEntry>)
    requires AllResolve(g, entries) && ProviderKeysKept(g, g')
    ensures AllResolve(g', entries)
  {
    forall i | 0 <= i < |entries| ensures ApplyTarget(g', entries[i]).Success? {
      assert ApplyTarget(g, entries[i]).Success?;
    }
  }

  /**
   * A module that keeps every provider key and gains the keys of its
   * providers, as one registered module does, with one new entry per global
   * provider: entries that resolved still do, and so do the new ones.
   */
  lemma ModuleResolves(st: ScanState, r: ScanState, d: ModuleDescriptor, token: Token, keyGen: nat -> Token)
    requires token in st.graph.modules.vals && OthersKept(st.graph, r.graph, token)
    requires r.applyMap == st.applyMap + GlobalEntries(GlobalsOf(d.providers), token, |st.applyMap|, keyGen)
    requires var before, after := st.graph.modules.vals[token].providers.vals, r.graph.modules.vals[token].providers.vals;
      forall k :: k in before || k in ProviderKeys(d.providers, |st.applyMap|, keyGen) ==> k in after
    requires AllResolve(st.graph, st.applyMap)
    ensures ProviderKeysKept(st.graph, r.graph) && AllResolve(r.graph, r.applyMap)
  {
    var n := |st.applyMap|;
    assert ProviderKeysKept(st.graph, r.graph);
    AllResolveKept(st.graph, r.graph, st.applyMap);
    NewEntriesResolve(r.graph, d, token, n, keyGen);
    AllResolveJoin(r.graph, st.applyMap, GlobalEntries(GlobalsOf(d.providers), token, n, keyGen));
  }

  /** A registered module keeps its provider keys and gains those of its providers. */
  lemma RegisteredKeys(st: ScanState, r: ScanState, refl: Reflection, d: ModuleDescriptor, token: Token, keyGen: nat -> Token)
    requires ModuleRegistered(st, r, refl, d, token, keyGen)
    ensures var before, after := st.graph.modules.vals[token].providers.vals, r.graph.modules.vals[token].providers.vals;
      forall k :: k in before || k in ProviderKeys(d.providers, |st.applyMap|, keyGen) ==> k in after
  {
  }

  /** The entries of a module's global providers resolve once the module holds their keys. */
  lemma NewEntriesResolve(g: Graph, d: ModuleDescriptor, token: Token, n: nat, keyGen: nat -> Token)
    requires token in g.modules.vals
    requires forall k :: k in ProviderKeys(d.providers, n, keyGen) ==> k in g.modules.vals[token].providers.vals
    ensures AllResolve(g, GlobalEntries(GlobalsOf(d.providers), token, n, keyGen))
  {
    var gs := GlobalsOf(d.providers);
    var es := GlobalEntries(gs, token, n, keyGen);
    GlobalEntriesAt(gs, token, n, keyGen);
    ProviderKeysCover(d.providers, n, keyGen);
    forall i | 0 <= i < |es| ensures ApplyTarget(g, es[i]).Success? {
      assert gs[i] in gs;
      assert keyGen(n + i) in ProviderKeys(d.providers, n, keyGen);
    }
  }

  lemma AllResolveJoin(g: Graph, a: seq<ApplyEntry>, b: seq<ApplyEntry>)
    requires AllResolve(g, a) && AllResolve(g, b)
    ensures AllResolve(g, a + b)
  {
    forall i | 0 <= i < |a + b| ensures ApplyTarget(g, (a + b)[i]).Success? {
      if i >= |a| {
        assert (a + b)[i] == b[i - |a|];
      } else {
        assert (a + b)[i] == a[i];
      }
    }
  }

  /** The loop over stored modules keeps every entry resolvable. */
  lemma {:induction false} DependenciesResolve(u: Universe, refl: Reflection, st: ScanState, tokens: seq<Token>, keyGen: nat -> Token)
    requires forall t :: t in tokens ==> t in st.graph.modules.vals
    requires AllResolve(st.graph, st.applyMap)
    ensures var res := DependenciesStored(u, refl, st, tokens, keyGen);
      res.Success? ==> AllResolve(res.value.graph, res.value.applyMap)
    decreases |tokens|
  {
    var res := DependenciesStored(u, refl, st, tokens, keyGen);
    if tokens != [] && res.Success? {
      var t := tokens[0];
      var st1 := ModuleDependenciesStored(u, refl, st, t, keyGen).value;
      ModuleRegisters(u, refl, st, t, keyGen);
      RegisteredKeys(st, st1, refl, DescriptorOf(u, t), t, keyGen);
      ModuleResolves(st, st1, DescriptorOf(u, t), t, keyGen);
      assert forall m :: m in tokens[1..] ==> m in tokens;
      DependenciesResolve(u, refl, st1, tokens[1..], keyGen);
    }
  }

  /**
   * `scan(module)` hands `applyApplicationProviders` a map it can apply: when
   * every entry resolved before the scan (in particular when the map was
   * empty), every entry resolves after it, so applying them reports no
   * error.
   */
  lemma ScanResolves(u: Universe, refl: Reflection, st: ScanState, root: ModuleRef, keyGen: nat -> Token, cfg: Globals)
    requires GraphValid(st.graph) && AllResolve(st.graph, st.applyMap)
    ensures var res := Scan(u, refl, st, root, keyGen);
      res.Success? ==>
        && AllResolve(res.value.graph, res.value.applyMap)
        && ApplyAll(res.value.graph, res.value.applyMap, cfg).error.None?
  {
    var res := Scan(u, refl, st, root, keyGen);
    if res.Success? {
      var d := ScanForModules(u, st.graph, root, {}).value;
      DiscoveryGrows(u, st.graph, root, {});
      AllResolveKept(st.graph, d.graph, st.applyMap);
      assert forall t :: t in d.graph.modules.keys ==> t in d.graph.modules.vals;
      DependenciesResolve(u, refl, st.(graph := d.graph), d.graph.modules.keys, keyGen);
      ApplyAllSucceeds(res.value.graph, res.value.applyMap, cfg);
    }
  }
}
