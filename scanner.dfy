/**
 * `DependenciesScanner`: walks the module descriptors from a root module,
 * fills the container, records global providers in its apply map, and after
 * boot applies them to the `ApplicationConfig`. Each method is proved to
 * move the scanner's state exactly as the matching function of ScannerSpec
 * says.
 */
module Scanner {
  import opened Wrappers
  import opened OrderedMaps
  import opened Descriptors
  import opened Metadata
  import opened Container
  import opened AppConfig
  import opened ScannerSpec

  class DependenciesScanner {
    const container: NestContainer
    const applicationConfig: ApplicationConfig
    /** The `@Module` metadata of the application's classes. */
    const universe: Universe
    /** The enhancer metadata of the application's classes. */
    const reflection: Reflection
    /** The source of fresh provider keys for global providers. */
    const keyGen: nat -> Token
    var applicationProvidersApplyMap: seq<ApplyEntry>

    function State(): ScanState
      reads this, container
    {
      ScanState(container.State(), applicationProvidersApplyMap)
    }

    constructor (container: NestContainer, applicationConfig: ApplicationConfig,
                 universe: Universe, reflection: Reflection, keyGen: nat -> Token)
      ensures this.container == container && this.applicationConfig == applicationConfig
      ensures this.universe == universe && this.reflection == reflection && this.keyGen == keyGen
      ensures applicationProvidersApplyMap == []
    {
      this.container := container;
      this.applicationConfig := applicationConfig;
      this.universe := universe;
      this.reflection := reflection;
      this.keyGen := keyGen;
      applicationProvidersApplyMap := [];
    }

    method Scan(root: ModuleRef) returns (err: Option<ScanError>)
      requires GraphValid(container.State())
      modifies this, container
      ensures var res := ScannerSpec.Scan(universe, reflection, old(State()), root, keyGen);
        && (err.None? <==> res.Success?)
        && (res.Success? ==> State() == res.value)
    {
      ghost var g0 := container.State();
      var registry;
      err, registry := ScanForModules(root, {});
      if err.Some? {
        return;
      }
      DiscoveryGrows(universe, g0, root, {});
      err := ScanModulesForDependencies();
    }

    method StoreModule(moduleRef: ModuleRef) returns (ok: bool)
      modifies container
      ensures var res := ModuleStored(old(container.State()), moduleRef);
        && ok == res.Success?
        && (ok ==> container.State() == res.value)
        && (!ok ==> container.State() == old(container.State()))
    {
      match Resolve(moduleRef)
      case None =>
        ok := false;
      case Some(cls) =>
        container.AddModule(cls);
        ok := true;
    }

    method ScanForModules(moduleRef: ModuleRef, ctxRegistry: set<ModuleRef>) returns (err: Option<ScanError>, registry: set<ModuleRef>)
      modifies container
      decreases VisitMeasure(universe, moduleRef, ctxRegistry), 0
      ensures var res := ScannerSpec.ScanForModules(universe, old(container.State()), moduleRef, ctxRegistry);
        && (err.None? <==> res.Success?)
        && (res.Success? ==> container.State() == res.value.graph && registry == res.value.registry)
    {
      ghost var g0 := container.State();
      var ok := StoreModule(moduleRef);
      if !ok {
        return Some(InvalidModule), ctxRegistry;
      }
      var cls := Resolve(moduleRef).value;
      VisitDecreases(universe, moduleRef, ctxRegistry);
      ScanForModulesUnfold(universe, g0, moduleRef, ctxRegistry);
      err, registry := ScanImportsOf(cls, ctxRegistry + {moduleRef});
    }

    /** The `for (const innerModule of modules)` loop of `scanForModules`: visit each import not yet in the registry. */
    method ScanImportsOf(cls: Token, visited: set<ModuleRef>) returns (err: Option<ScanError>, registry: set<ModuleRef>)
      modifies container
      decreases Pending(universe, visited), 1
      ensures var res := ScanImports(universe, old(container.State()), cls, 0, visited);
        && (err.None? <==> res.Success?)
        && (res.Success? ==> container.State() == res.value.graph && registry == res.value.registry)
    {
      ghost var g0 := container.State();
      var imports := DescriptorOf(universe, cls).imports;
      registry := visited;
      var i := 0;
      while i < |imports|
        invariant 0 <= i <= |imports|
        invariant visited <= registry
        invariant ScanImports(universe, g0, cls, 0, visited) == ScanImports(universe, container.State(), cls, i, registry)
      {
        var innerModule := imports[i];
        ghost var gi, vi := container.State(), registry;
        if innerModule !in registry {
          ImportPending(universe, cls, i, visited, registry);
          var e, reg := ScanForModules(innerModule, registry);
          if e.Some? {
            ScanImportsFails(universe, gi, cls, i, vi);
            return e, reg;
          }
          registry := reg;
        }
        ScanImportsAdvance(universe, gi, cls, i, vi, container.State(), registry);
        i := i + 1;
      }
      err := None;
    }

    method ScanModulesForDependencies() returns (err: Option<ScanError>)
      requires GraphValid(container.State())
      modifies this, container
      ensures var res := DependenciesStored(universe, reflection, old(State()), old(container.modules.keys), keyGen);
        && (err.None? <==> res.Success?)
        && (res.Success? ==> State() == res.value)
    {
      var tokens := container.modules.keys;
      var i := 0;
      while i < |tokens|
        invariant 0 <= i <= |tokens|
        invariant forall t :: t in tokens ==> t in container.modules.vals
        invariant DependenciesStored(universe, reflection, old(State()), tokens, keyGen)
          == DependenciesStored(universe, reflection, State(), tokens[i..], keyGen)
      {
        var token := tokens[i];
        assert tokens[i..][1..] == tokens[i + 1..];
        ghost var st0 := State();
        var e := ReflectRelatedModules(token);
        if e.Some? {
          return e;
        }
        ReflectProviders(token);
        ReflectControllers(token);
        ReflectExports(token);
        assert Success(State()) == ModuleDependenciesStored(universe, reflection, st0, token, keyGen);
        i := i + 1;
      }
      err := None;
    }

    method ReflectRelatedModules(token: Token) returns (err: Option<ScanError>)
      modifies container
      ensures var res := RelatedModulesStored(old(container.State()), DescriptorOf(universe, token).imports, token);
        && (err.None? <==> res.Success?)
        && (res.Success? ==> container.State() == res.value)
    {
      var modules := DescriptorOf(universe, token).imports;
      var i := 0;
      while i < |modules|
        invariant 0 <= i <= |modules|
        invariant RelatedModulesStored(old(container.State()), modules, token)
          == RelatedModulesStored(container.State(), modules[i..], token)
      {
        assert modules[i..][1..] == modules[i + 1..];
        var ok := StoreRelatedModule(modules[i], token);
        if !ok {
          return Some(InvalidModule);
        }
        i := i + 1;
      }
      err := None;
    }

    method StoreRelatedModule(related: ModuleRef, token: Token) returns (ok: bool)
      modifies container
      ensures var res := RelatedModuleStored(old(container.State()), related, token);
        && ok == res.Success?
        && (ok ==> container.State() == res.value)
        && (!ok ==> container.State() == old(container.State()))
    {
      match Resolve(related)
      case None =>
        ok := false;
      case Some(cls) =>
        container.AddRelatedModule(cls, token);
        ok := true;
    }

    method ReflectProviders(token: Token)
      requires token in container.modules.vals
      modifies this, container
      ensures State() == ProvidersStored(old(State()), reflection, DescriptorOf(universe, token).providers, token, keyGen)
    {
      var providers := DescriptorOf(universe, token).providers;
      var i := 0;
      while i < |providers|
        invariant 0 <= i <= |providers|
        invariant ProvidersStored(old(State()), reflection, providers, token, keyGen)
          == ProvidersStored(State(), reflection, providers[i..], token, keyGen)
      {
        var provider := providers[i];
        ghost var st0 := State();
        var _ := StoreProvider(provider, token);
        ghost var st1 := State();
        var _ := ReflectDynamicMetadata(PrototypeOf(provider), token);
        assert State() == st1.(graph := DynamicMetadataStored(st1.graph, reflection, PrototypeOf(provider), token));
        ProvidersStoredStep(st0, reflection, providers, i, token, keyGen);
        i := i + 1;
      }
    }

    method ReflectControllers(token: Token)
      requires token in container.modules.vals
      modifies container
      ensures container.State() == ControllersStored(old(container.State()), reflection, DescriptorOf(universe, token).controllers, token)
    {
      var routes := DescriptorOf(universe, token).controllers;
      var i := 0;
      while i < |routes|
        invariant 0 <= i <= |routes|
        invariant ControllersStored(old(container.State()), reflection, routes, token)
          == ControllersStored(container.State(), reflection, routes[i..], token)
      {
        assert routes[i..][1..] == routes[i + 1..];
        var _ := StoreRoute(routes[i], token);
        var _ := ReflectDynamicMetadata(Some(routes[i]), token);
        i := i + 1;
      }
    }

    method ReflectExports(token: Token)
      requires token in container.modules.vals
      modifies container
      ensures container.State() == ExportsStored(old(container.State()), DescriptorOf(universe, token).exports, token)
    {
      var exports := DescriptorOf(universe, token).exports;
      var i := 0;
      while i < |exports|
        invariant 0 <= i <= |exports|
        invariant token in container.modules.vals
        invariant ExportsStored(old(container.State()), exports, token)
          == ExportsStored(container.State(), exports[i..], token)
      {
        assert exports[i..][1..] == exports[i + 1..];
        var _ := StoreExportedProvider(exports[i], token);
        i := i + 1;
      }
    }

    /** Registers the enhancers of a component; `component` is its class when it has a prototype. */
    method ReflectDynamicMetadata(component: Option<Token>, token: Token) returns (ok: bool)
      modifies container
      ensures container.State() == DynamicMetadataStored(old(container.State()), reflection, component, token)
      ensures ok <==> component.None? || DynamicInjectables(reflection, component.value) == [] || Knows(old(container.State()), token)
    {
      ok := true;
      if component.None? {
        return;
      }
      var injectables := DynamicInjectables(reflection, component.value);
      ghost var g0 := container.State();
      var i := 0;
      while i < |injectables|
        invariant 0 <= i <= |injectables|
        invariant SameModules(g0, container.State())
        invariant ok <==> i == 0 || Knows(g0, token)
        invariant InjectablesStored(g0, injectables, token) == InjectablesStored(container.State(), injectables[i..], token)
      {
        InjectablesStoredStep(container.State(), injectables, i, token);
        var stored := StoreInjectable(injectables[i], token);
        ok := ok && stored;
        i := i + 1;
      }
    }

    method StoreProvider(provider: Provider, token: Token) returns (ok: bool)
      modifies this, container
      ensures ok == Knows(old(container.State()), token)
      ensures State() == ProviderStored(old(State()), provider, token, keyGen)
    {
      if !provider.CustomProvider? {
        ok := container.AddProvider(provider, token);
        return;
      }
      if ApplyProvidersMap(provider.provide).None? {
        ok := container.AddProvider(provider, token);
        return;
      }
      var providerKey := keyGen(|applicationProvidersApplyMap|);
      applicationProvidersApplyMap := applicationProvidersApplyMap + [ApplyEntry(token, providerKey, provider.provide)];
      ok := container.AddProvider(CustomProvider(providerKey, provider.recipe), token);
    }

    method StoreInjectable(injectable: Token, token: Token) returns (ok: bool)
      modifies container
      ensures ok == Knows(old(container.State()), token)
      ensures container.State() == InjectableAdded(old(container.State()), injectable, token)
    {
      ok := container.AddInjectable(injectable, token);
    }

    method StoreRoute(route: Token, token: Token) returns (ok: bool)
      modifies container
      ensures ok == Knows(old(container.State()), token)
      ensures container.State() == ControllerAdded(old(container.State()), route, token)
    {
      ok := container.AddController(route, token);
    }

    method StoreExportedProvider(exportedProvider: Token, token: Token) returns (ok: bool)
      modifies container
      ensures ok == Knows(old(container.State()), token)
      ensures container.State() == ExportAdded(old(container.State()), exportedProvider, token)
    {
      ok := container.AddExportedProvider(exportedProvider, token);
    }

    /** `getApplyProvidersMap()[kind](instance)`: the append of the reserved token's own kind. */
    method ApplyProvider(kind: Token, instance: Instance) returns (ok: bool)
      modifies applicationConfig
      ensures ok == ApplyProvidersMap(kind).Some?
      ensures ok ==> applicationConfig.Snapshot() == Append(old(applicationConfig.Snapshot()), ApplyProvidersMap(kind).value, instance)
      ensures !ok ==> applicationConfig.Snapshot() == old(applicationConfig.Snapshot())
    {
      ok := true;
      if kind == APP_INTERCEPTOR {
        applicationConfig.AddGlobalInterceptor(instance);
      } else if kind == APP_PIPE {
        applicationConfig.AddGlobalPipe(instance);
      } else if kind == APP_GUARD {
        applicationConfig.AddGlobalGuard(instance);
      } else if kind == APP_FILTER {
        applicationConfig.AddGlobalFilter(instance);
      } else {
        ok := false;
      }
    }

    method ApplyApplicationProviders() returns (err: Option<ScanError>)
      modifies applicationConfig
      ensures var res := ApplyAll(container.State(), applicationProvidersApplyMap, old(applicationConfig.Snapshot()));
        applicationConfig.Snapshot() == res.globals && err == res.error
    {
      var applyMap := applicationProvidersApplyMap;
      var i := 0;
      while i < |applyMap|
        invariant 0 <= i <= |applyMap|
        invariant ApplyAll(container.State(), applyMap, old(applicationConfig.Snapshot()))
          == ApplyAll(container.State(), applyMap[i..], applicationConfig.Snapshot())
      {
        assert applyMap[i..][1..] == applyMap[i + 1..];
        var entry := applyMap[i];
        var modules := container.modules;
        if entry.moduleKey !in modules.vals {
          return Some(UndefinedModule(entry.moduleKey));
        }
        var providers := modules.vals[entry.moduleKey].providers;
        if entry.providerKey !in providers.vals {
          return Some(UndefinedProvider(entry.providerKey));
        }
        var instance := providers.vals[entry.providerKey].instance;
        var ok := ApplyProvider(entry.kind, instance);
        if !ok {
          return Some(NotAFunction(entry.kind));
        }
        i := i + 1;
      }
      err := None;
    }
  }
}
