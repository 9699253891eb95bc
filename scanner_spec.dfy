/**
 * What the dependencies scanner computes, as functions of its inputs: the
 * module descriptors, the decorator metadata, the container state and apply
 * map it starts from, and the generator of fresh provider keys for global
 * providers. The `DependenciesScanner` class in module Scanner is proved to
 * move its state exactly as these functions say.
 *
 * A scan runs in two passes: module discovery (`scanForModules`) walks the
 * imports depth-first from the root with a registry of the references already
 * visited, storing each module; then `scanModulesForDependencies` visits
 * every stored module in registration order and registers its imports,
 * providers (with their enhancers), controllers (with theirs) and exports.
 */
module ScannerSpec {
  import opened Wrappers
  import opened OrderedMaps
  import opened Descriptors
  import opened Metadata
  import opened Container
  import opened AppConfig

  /** An entry of `applicationProvidersApplyMap`; `kind` is the reserved token (`type` in the source). */
  datatype ApplyEntry = ApplyEntry(moduleKey: Token, providerKey: Token, kind: Token)

  datatype ScanError =
    | InvalidModule                        // a nil module after forward-reference evaluation
    | UndefinedModule(moduleKey: Token)    // apply entry names no module
    | UndefinedProvider(providerKey: Token) // apply entry names no provider of its module
    | NotAFunction(kind: Token)            // apply entry's type has no apply function

  datatype ScanState = ScanState(graph: Graph, applyMap: seq<ApplyEntry>)

  /** The result of module discovery: the graph and the registry of visited references. */
  datatype Discovery = Discovery(graph: Graph, registry: set<ModuleRef>)

  /** Records before `g'` are kept as they are, and every record `g'` adds is empty. */
  ghost predicate OnlyNewEmptyModules(g: Graph, g': Graph) {
    && (forall m :: m in g.modules.vals ==> m in g'.modules.vals && g'.modules.vals[m] == g.modules.vals[m])
    && (forall m :: m in g'.modules.vals && m !in g.modules.vals ==> g'.modules.vals[m] == EmptyRecord)
  }

  /** `storeModule`: evaluates a forward reference, then registers the class; nil is an invalid module. */
  function ModuleStored(g: Graph, r: ModuleRef): (res: Result<Graph, ScanError>)
    ensures res.Failure? <==> Resolve(r) == None
    ensures res.Failure? ==> res.error == InvalidModule
    ensures res.Success? ==> Resolve(r).value in res.value.modules.vals && OnlyNewEmptyModules(g, res.value)
    ensures res.Success? ==> res.value.calls == g.calls + [AddModuleCall(Resolve(r).value)]
    ensures res.Success? && GraphValid(g) ==> GraphValid(res.value)
  {
    match Resolve(r)
    case None => Failure(InvalidModule)
    case Some(cls) => Success(ModuleAdded(g, cls))
  }

  lemma DiffShrinks<T>(a: set<T>, v: set<T>, v': set<T>)
    requires v <= v'
    ensures |a - v'| <= |a - v|
  {
    assert a - v' <= a - v;
    SubsetCard(a - v', a - v);
  }

  lemma {:induction false} SubsetCard<T>(x: set<T>, y: set<T>)
    requires x <= y
    ensures |x| <= |y|
    decreases |y|
  {
    if x != {} {
      var e :| e in x;
      SubsetCard(x - {e}, y - {e});
    }
  }

  /** The measure of a discovery step: references of the universe not yet visited. */
  function Pending(u: Universe, visited: set<ModuleRef>): nat {
    |ImportRefs(u) - visited|
  }

  function VisitMeasure(u: Universe, r: ModuleRef, visited: set<ModuleRef>): nat {
    Pending(u, visited) + (if r in ImportRefs(u) && r !in visited then 0 else 1)
  }

  lemma VisitDecreases(u: Universe, r: ModuleRef, visited: set<ModuleRef>)
    ensures Pending(u, visited + {r}) < VisitMeasure(u, r, visited)
  {
    var refs := ImportRefs(u);
    if r in refs && r !in visited {
      assert refs - visited == (refs - (visited + {r})) + {r};
    } else {
      assert refs - (visited + {r}) == refs - visited;
    }
  }

  /**
   * `scanForModules(module, scope, ctxRegistry)`: store the module, add the
   * reference to the registry, then visit each import the registry does not
   * hold yet. The registry is what makes cyclic imports terminate.
   */
  function ScanForModules(u: Universe, g: Graph, r: ModuleRef, visited: set<ModuleRef>): (res: Result<Discovery, ScanError>)
    decreases VisitMeasure(u, r, visited), 0, 0
    ensures res.Success? ==> visited + {r} <= res.value.registry
  {
    var g1 :- ModuleStored(g, r);
    VisitDecreases(u, r, visited);
    ScanImports(u, g1, Resolve(r).value, 0, visited + {r})
  }

  /** The `for (const innerModule of modules)` loop of `scanForModules`, from import `i` on. */
  function ScanImports(u: Universe, g: Graph, cls: Token, i: nat, visited: set<ModuleRef>): (res: Result<Discovery, ScanError>)
    requires i <= |DescriptorOf(u, cls).imports|
    decreases Pending(u, visited), 1, |DescriptorOf(u, cls).imports| - i
    ensures res.Success? ==> visited <= res.value.registry
  {
    var imports := DescriptorOf(u, cls).imports;
    if i == |imports| then Success(Discovery(g, visited))
    else if imports[i] in visited then ScanImports(u, g, cls, i + 1, visited)
    else
      assert VisitMeasure(u, imports[i], visited) == Pending(u, visited);
      var d :- ScanForModules(u, g, imports[i], visited);
      DiffShrinks(ImportRefs(u), visited, d.registry);
      ScanImports(u, d.graph, cls, i + 1, d.registry)
  }

  /** One turn of the import loop: a visited import is skipped, any other is scanned first. */
  lemma ScanImportsStep(u: Universe, g: Graph, cls: Token, i: nat, visited: set<ModuleRef>)
    requires i < |DescriptorOf(u, cls).imports|
    ensures DescriptorOf(u, cls).imports[i] in ImportRefs(u)
    ensures var r := DescriptorOf(u, cls).imports[i];
      && (r in visited ==> ScanImports(u, g, cls, i, visited) == ScanImports(u, g, cls, i + 1, visited))
      && (r !in visited ==>
           var d := ScanForModules(u, g, r, visited);
           ScanImports(u, g, cls, i, visited)
             == if d.Failure? then Failure(d.error) else ScanImports(u, d.value.graph, cls, i + 1, d.value.registry))
  {
  }

  /** Import `i` either is already visited or is discovered into `g'` and `visited'`; the loop goes on from `i + 1`. */
  lemma ScanImportsAdvance(u: Universe, g: Graph, cls: Token, i: nat, visited: set<ModuleRef>, g': Graph, visited': set<ModuleRef>)
    requires i < |DescriptorOf(u, cls).imports|
    requires var r := DescriptorOf(u, cls).imports[i];
      || (r in visited && g' == g && visited' == visited)
      || (r !in visited && ScanForModules(u, g, r, visited) == Success(Discovery(g', visited')))
    ensures ScanImports(u, g, cls, i, visited) == ScanImports(u, g', cls, i + 1, visited')
  {
    ScanImportsStep(u, g, cls, i, visited);
  }

  /**
   * Discovery only adds modules, each with an empty record, keeps the graph
   * valid, and stores the module the reference resolves to.
   */
  lemma {:induction false} DiscoveryGrows(u: Universe, g: Graph, r: ModuleRef, visited: set<ModuleRef>)
    ensures var res := ScanForModules(u, g, r, visited);
      res.Success? ==>
        && OnlyNewEmptyModules(g, res.value.graph)
        && (GraphValid(g) ==> GraphValid(res.value.graph))
        && Resolve(r).Some? && Resolve(r).value in res.value.graph.modules.vals
    decreases VisitMeasure(u, r, visited), 0, 0
  {
    var res := ScanForModules(u, g, r, visited);
    if res.Success? {
      var cls := Resolve(r).value;
      var g1 := ModuleAdded(g, cls);
      ScanForModulesUnfold(u, g, r, visited);
      VisitDecreases(u, r, visited);
      ImportsGrow(u, g1, cls, 0, visited + {r});
    }
  }

  /** The import loop only adds empty modules and keeps the graph valid. */
  lemma {:induction false} ImportsGrow(u: Universe, g: Graph, cls: Token, i: nat, visited: set<ModuleRef>)
    requires i <= |DescriptorOf(u, cls).imports|
    ensures var res := ScanImports(u, g, cls, i, visited);
      res.Success? ==> OnlyNewEmptyModules(g, res.value.graph) && (GraphValid(g) ==> GraphValid(res.value.graph))
    decreases Pending(u, visited), 1, |DescriptorOf(u, cls).imports| - i
  {
    var imports := DescriptorOf(u, cls).imports;
    var res := ScanImports(u, g, cls, i, visited);
    if i < |imports| && res.Success? {
      ScanImportsStep(u, g, cls, i, visited);
      var r := imports[i];
      if r in visited {
        ImportsGrow(u, g, cls, i + 1, visited);
      } else {
        assert VisitMeasure(u, r, visited) == Pending(u, visited);
        var d := ScanForModules(u, g, r, visited).value;
        DiscoveryGrows(u, g, r, visited);
        DiffShrinks(ImportRefs(u), visited, d.registry);
        ImportsGrow(u, d.graph, cls, i + 1, d.registry);
      }
    }
  }

  /** An import whose discovery fails stops the loop with that failure. */
  lemma ScanImportsFails(u: Universe, g: Graph, cls: Token, i: nat, visited: set<ModuleRef>)
    requires i < |DescriptorOf(u, cls).imports|
    requires var r := DescriptorOf(u, cls).imports[i];
      r !in visited && ScanForModules(u, g, r, visited).Failure?
    ensures ScanImports(u, g, cls, i, visited) == Failure(ScanForModules(u, g, DescriptorOf(u, cls).imports[i], visited).error)
  {
    ScanImportsStep(u, g, cls, i, visited);
  }

  /** Visiting an import not yet in a registry that grew from `visited` costs no more than `visited` has left. */
  lemma ImportPending(u: Universe, cls: Token, i: nat, visited: set<ModuleRef>, registry: set<ModuleRef>)
    requires i < |DescriptorOf(u, cls).imports| && visited <= registry
    requires DescriptorOf(u, cls).imports[i] !in registry
    ensures VisitMeasure(u, DescriptorOf(u, cls).imports[i], registry) <= Pending(u, visited)
  {
    assert DescriptorOf(u, cls).imports[i] in ImportRefs(u);
    DiffShrinks(ImportRefs(u), visited, registry);
  }

  /** A stored module continues with its imports, from the first. */
  lemma ScanForModulesUnfold(u: Universe, g: Graph, r: ModuleRef, visited: set<ModuleRef>)
    requires Resolve(r).Some?
    ensures ScanForModules(u, g, r, visited)
      == ScanImports(u, ModuleAdded(g, Resolve(r).value), Resolve(r).value, 0, visited + {r})
  {
  }

  /** `storeRelatedModule(related, token)`: a nil module (after forward-reference evaluation) is an error. */
  function RelatedModuleStored(g: Graph, related: ModuleRef, token: Token): (res: Result<Graph, ScanError>)
    ensures res.Failure? <==> Resolve(related) == None
    ensures res.Failure? ==> res.error == InvalidModule
    ensures res.Success? ==> res.value == RelatedModuleAdded(g, Resolve(related).value, token)
  {
    match Resolve(related)
    case None => Failure(InvalidModule)
    case Some(cls) => Success(RelatedModuleAdded(g, cls, token))
  }

  /** The parts of a graph that registering members leaves alone: which modules exist, in which order. */
  ghost predicate SameModules(g: Graph, g': Graph) {
    g'.modules.keys == g.modules.keys && g'.modules.vals.Keys == g.modules.vals.Keys
  }

  /** Exports of every module are as they were. */
  ghost predicate SameExports(g: Graph, g': Graph)
    requires SameModules(g, g')
  {
    forall m :: m in g.modules.vals ==> g'.modules.vals[m].exports == g.modules.vals[m].exports
  }

  /** `reflectRelatedModules`: stores each import of the module in turn. */
  function RelatedModulesStored(g: Graph, imports: seq<ModuleRef>, token: Token): (res: Result<Graph, ScanError>)
    decreases |imports|
    ensures res.Failure? <==> exists i :: 0 <= i < |imports| && Resolve(imports[i]) == None
    ensures res.Success? ==> SameModules(g, res.value) && SameExports(g, res.value)
    ensures res.Success? && GraphValid(g) ==> GraphValid(res.value)
  {
    if imports == [] then Success(g)
    else
      match RelatedModuleStored(g, imports[0], token)
      case Failure(e) => Failure(e)
      case Success(g1) =>
        var res := RelatedModulesStored(g1, imports[1..], token);
        assert forall i :: 1 <= i < |imports| ==> imports[i] == imports[1..][i - 1];
        res
  }

  /** A custom provider bound to one of the four reserved tokens. */
  predicate IsGlobal(p: Provider) {
    p.CustomProvider? && ApplyProvidersMap(p.provide).Some?
  }

  /**
   * `storeProvider(provider, token)`. A class, or a custom provider of an
   * ordinary token, is registered as it is. A global one gets a fresh
   * provider key, is recorded in the apply map under its module, and is
   * registered under that key.
   */
  function ProviderStored(st: ScanState, p: Provider, token: Token, keyGen: nat -> Token): (r: ScanState)
    ensures !IsGlobal(p) ==> r.applyMap == st.applyMap && r.graph == ProviderAdded(st.graph, p, token)
    ensures IsGlobal(p) ==>
      var key := keyGen(|st.applyMap|);
      && r.applyMap == st.applyMap + [ApplyEntry(token, key, p.provide)]
      && r.graph == ProviderAdded(st.graph, CustomProvider(key, p.recipe), token)
  {
    if IsGlobal(p) then
      var key := keyGen(|st.applyMap|);
      ScanState(ProviderAdded(st.graph, CustomProvider(key, p.recipe), token), st.applyMap + [ApplyEntry(token, key, p.provide)])
    else st.(graph := ProviderAdded(st.graph, p, token))
  }

  /** `storeInjectable` for each class of `injectables`, in order. */
  function InjectablesStored(g: Graph, injectables: seq<Token>, token: Token): (r: Graph)
    decreases |injectables|
    ensures SameModules(g, r) && SameExports(g, r)
    ensures GraphValid(g) ==> GraphValid(r)
  {
    if injectables == [] then g
    else InjectablesStored(InjectableAdded(g, injectables[0], token), injectables[1..], token)
  }

  /** Storing the injectables from the `i`-th on is storing the `i`-th, then the rest. */
  lemma InjectablesStoredStep(g: Graph, injectables: seq<Token>, i: nat, token: Token)
    requires i < |injectables|
    ensures InjectablesStored(g, injectables[i..], token)
      == InjectablesStored(InjectableAdded(g, injectables[i], token), injectables[i + 1..], token)
  {
    assert injectables[i..][1..] == injectables[i + 1..];
  }

  /** `reflectDynamicMetadata(component, token)`: a component without a prototype contributes nothing. */
  function DynamicMetadataStored(g: Graph, refl: Reflection, component: Option<Token>, token: Token): (r: Graph)
    ensures SameModules(g, r) && SameExports(g, r)
    ensures GraphValid(g) ==> GraphValid(r)
  {
    match component
    case None => g
    case Some(c) => InjectablesStored(g, DynamicInjectables(refl, c), token)
  }

  /** `reflectProviders`: each provider is stored, then its enhancers. */
  function ProvidersStored(st: ScanState, refl: Reflection, providers: seq<Provider>, token: Token, keyGen: nat -> Token): (r: ScanState)
    decreases |providers|
    ensures SameModules(st.graph, r.graph) && SameExports(st.graph, r.graph)
    ensures GraphValid(st.graph) ==> GraphValid(r.graph)
  {
    if providers == [] then st
    else
      var st1 := ProviderStored(st, providers[0], token, keyGen);
      var st2 := st1.(graph := DynamicMetadataStored(st1.graph, refl, PrototypeOf(providers[0]), token));
      ProvidersStored(st2, refl, providers[1..], token, keyGen)
  }

  /** Storing the providers from the `i`-th on is storing the `i`-th, its enhancers, and then the rest. */
  lemma ProvidersStoredStep(st: ScanState, refl: Reflection, providers: seq<Provider>, i: nat, token: Token, keyGen: nat -> Token)
    requires i < |providers|
    ensures
      var st1 := ProviderStored(st, providers[i], token, keyGen);
      ProvidersStored(st, refl, providers[i..], token, keyGen)
        == ProvidersStored(st1.(graph := DynamicMetadataStored(st1.graph, refl, PrototypeOf(providers[i]), token)), refl, providers[i + 1..], token, keyGen)
  {
    assert providers[i..][1..] == providers[i + 1..];
  }

  /** `reflectControllers`: each controller is stored as a route, then its enhancers. */
  function ControllersStored(g: Graph, refl: Reflection, controllers: seq<Token>, token: Token): (r: Graph)
    decreases |controllers|
    ensures SameModules(g, r) && SameExports(g, r)
    ensures GraphValid(g) ==> GraphValid(r)
  {
    if controllers == [] then g
    else
      var g1 := ControllerAdded(g, controllers[0], token);
      var g2 := DynamicMetadataStored(g1, refl, Some(controllers[0]), token);
      var r := ControllersStored(g2, refl, controllers[1..], token);
      SameModulesTrans(g, g1, g2);
      SameModulesTrans(g, g2, r);
      r
  }

  lemma SameModulesTrans(a: Graph, b: Graph, c: Graph)
    requires SameModules(a, b) && SameExports(a, b)
    requires SameModules(b, c) && SameExports(b, c)
    ensures SameModules(a, c) && SameExports(a, c)
  {
  }

  /** `reflectExports`: the module's exports grow by exactly the listed tokens. */
  function ExportsStored(g: Graph, exports: seq<Token>, token: Token): (r: Graph)
    requires token in g.modules.vals
    decreases |exports|
    ensures SameModules(g, r)
    ensures GraphValid(g) ==> GraphValid(r)
    ensures forall m :: m in g.modules.vals && m != token ==> r.modules.vals[m] == g.modules.vals[m]
    ensures r.modules.vals[token].exports == g.modules.vals[token].exports + set e | e in exports
  {
    if exports == [] then g
    else
      var r := ExportsStored(ExportAdded(g, exports[0], token), exports[1..], token);
      assert (set e | e in exports) == {exports[0]} + set e | e in exports[1..];
      r
  }

  /** One iteration of `scanModulesForDependencies`, for the module `token`. */
  function ModuleDependenciesStored(u: Universe, refl: Reflection, st: ScanState, token: Token, keyGen: nat -> Token): (res: Result<ScanState, ScanError>)
    requires token in st.graph.modules.vals
    ensures res.Success? ==> SameModules(st.graph, res.value.graph)
    ensures res.Success? && GraphValid(st.graph) ==> GraphValid(res.value.graph)
    ensures res.Success? ==>
      && (forall m :: m in st.graph.modules.vals && m != token ==>
           res.value.graph.modules.vals[m].exports == st.graph.modules.vals[m].exports)
      && res.value.graph.modules.vals[token].exports
           == st.graph.modules.vals[token].exports + set e | e in DescriptorOf(u, token).exports
  {
    var d := DescriptorOf(u, token);
    var g1 :- RelatedModulesStored(st.graph, d.imports, token);
    var st2 := ProvidersStored(st.(graph := g1), refl, d.providers, token, keyGen);
    var g3 := ControllersStored(st2.graph, refl, d.controllers, token);
    Success(ScanState(ExportsStored(g3, d.exports, token), st2.applyMap))
  }

  /** One module's registration, given the outcome of each of its four steps. */
  lemma ModuleDependenciesSteps(u: Universe, refl: Reflection, st: ScanState, token: Token, keyGen: nat -> Token, g1: Graph, st2: ScanState, g3: Graph)
    requires token in st.graph.modules.vals
    requires RelatedModulesStored(st.graph, DescriptorOf(u, token).imports, token) == Success(g1)
    requires st2 == ProvidersStored(st.(graph := g1), refl, DescriptorOf(u, token).providers, token, keyGen)
    requires g3 == ControllersStored(st2.graph, refl, DescriptorOf(u, token).controllers, token)
    ensures ModuleDependenciesStored(u, refl, st, token, keyGen) == Success(ScanState(ExportsStored(g3, DescriptorOf(u, token).exports, token), st2.applyMap))
  {
  }

  /** `scanModulesForDependencies`: every listed module in turn; the first failure stops the scan. */
  function DependenciesStored(u: Universe, refl: Reflection, st: ScanState, tokens: seq<Token>, keyGen: nat -> Token): (res: Result<ScanState, ScanError>)
    requires forall t :: t in tokens ==> t in st.graph.modules.vals
    decreases |tokens|
    ensures res.Success? ==> SameModules(st.graph, res.value.graph)
    ensures res.Success? && GraphValid(st.graph) ==> GraphValid(res.value.graph)
  {
    if tokens == [] then Success(st)
    else
      var st1 :- ModuleDependenciesStored(u, refl, st, tokens[0], keyGen);
      assert forall t :: t in tokens[1..] ==> t in tokens;
      DependenciesStored(u, refl, st1, tokens[1..], keyGen)
  }

  /**
   * `scan(module)`: discovery from the root, then registration of every
   * stored module's members. Graph validity is what the container keeps from
   * its construction on (`EmptyGraphValid` and every transition preserve it),
   * so every state the scanner starts from meets the precondition.
   */
  function Scan(u: Universe, refl: Reflection, st: ScanState, root: ModuleRef, keyGen: nat -> Token): (res: Result<ScanState, ScanError>)
    requires GraphValid(st.graph)
    ensures res.Success? ==> GraphValid(res.value.graph)
  {
    var d :- ScanForModules(u, st.graph, root, {});
    DiscoveryGrows(u, st.graph, root, {});
    DependenciesStored(u, refl, st.(graph := d.graph), d.graph.modules.keys, keyGen)
  }

  /**
   * Where an apply entry leads: its module, that module's provider, and the
   * apply function of its type, checked in that order. The result is the
   * kind to append to and the provider's instance.
   */
  function ApplyTarget(g: Graph, e: ApplyEntry): (res: Result<(GlobalKind, Instance), ScanError>)
    ensures res.Success? <==>
      && e.moduleKey in g.modules.vals
      && e.providerKey in g.modules.vals[e.moduleKey].providers.vals
      && ApplyProvidersMap(e.kind).Some?
    ensures res.Success? ==>
      && res.value.0 == ApplyProvidersMap(e.kind).value
      && res.value.1 == g.modules.vals[e.moduleKey].providers.vals[e.providerKey].instance
  {
    if e.moduleKey !in g.modules.vals then Failure(UndefinedModule(e.moduleKey))
    else if e.providerKey !in g.modules.vals[e.moduleKey].providers.vals then Failure(UndefinedProvider(e.providerKey))
    else match ApplyProvidersMap(e.kind)
      case None => Failure(NotAFunction(e.kind))
      case Some(k) => Success((k, g.modules.vals[e.moduleKey].providers.vals[e.providerKey].instance))
  }

  datatype ApplyOutcome = ApplyOutcome(globals: Globals, error: Option<ScanError>)

  /** `applyApplicationProviders`: each entry in order; the first that cannot be applied stops the loop. */
  function ApplyAll(g: Graph, entries: seq<ApplyEntry>, cfg: Globals): (r: ApplyOutcome)
  {
    if entries == [] then ApplyOutcome(cfg, None)
    else
      match ApplyTarget(g, entries[0])
      case Failure(e) => ApplyOutcome(cfg, Some(e))
      case Success(t) => ApplyAll(g, entries[1..], Append(cfg, t.0, t.1))
  }
}
