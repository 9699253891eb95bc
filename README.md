# Dependency scanning and instance loading of a NestJS-style DI core

This project models two stages of the boot pipeline of a dependency-injection
framework and proves what each stage promises.

**The dependencies scanner.** Starting from a root module, the scanner walks
the module descriptors (`imports`, `providers`, `controllers`, `exports`). It
registers each module once into the container (`NestContainer`), then
registers the imports, providers (with their enhancers), controllers and
exports of every registered module under that module's token.

A custom provider bound to one of the reserved tokens `APP_GUARD`,
`APP_INTERCEPTOR`, `APP_PIPE` or `APP_FILTER` is also recorded in the
scanner's apply map. After boot, `applyApplicationProviders` hands the
instance of each recorded provider to the matching `addGlobal*` method of
`ApplicationConfig`. The scanner implementation file is not part of this
model. Its behaviour is taken from what `packages/core/test/scanner.spec.ts`
pins down, case by case, together with the two-pass shape of the scanner
that test drives: module discovery first, then per-module registration.

**The instance loader.** `InstanceLoader.createInstancesOfDependencies` runs
a prototype pass over every provider, injectable and route wrapper of every
module. It then runs an instance pass. For each module, the instance pass
resolves the providers, then the injectables, then the routes, then logs
that the module is initialised. The injector is not part of this model. Its
operations append `Proto`, `Inst` and `Log` events to a ghost trace, and an
instance step gives an unresolved wrapper an instance.

Layout, one module per file:

- `OrderedMaps`: the insertion-ordered map (a JavaScript `Map`).
- `Wrappers`: `Option` and `Result`.
- `Descriptors`: tokens, module references with forward references, providers, and the reserved-token dispatch.
- `Metadata`: decorator metadata as explicit maps, and the reflection functions that read it.
- `AppConfig`: `ApplicationConfig`.
- `Container`: the module graph and its registration transitions, plus the `NestContainer` class.
- `ScannerSpec`: the scanner as functions.
- `Scanner`: the `DependenciesScanner` class, each method proved to move its state exactly as the matching `ScannerSpec` function says.
- `ScannerProperties`: properties that relate several scanner operations.
- `Registration`: what storing a module's imports, providers, controllers, enhancers and exports registers and logs.
- `ScanRegistration`: the same for one iteration of the per-module pass and for a whole scan.
- `ScannerFixture`: the reference scenarios as concrete instances.
- `InjectorModel`: the injector as trace-recording operations.
- `Loader`: `LoaderTrace` and the `InstanceLoader` class, proved to produce that trace.
- `LoaderProperties`: ordering and coverage of the trace.

## Model

| member | source | states |
|---|---|---|
| Descriptors.PrototypeOf | packages/core/test/scanner.spec.ts:83-112 | A provider has a reflectable prototype exactly when it is a class, and that prototype is its own class; a custom descriptor has none. |
| Descriptors.ApplyProvidersMap | packages/core/test/scanner.spec.ts:267-307 | The apply-function map has exactly the four reserved tokens as keys. `APP_INTERCEPTOR`, `APP_GUARD`, `APP_PIPE` and `APP_FILTER` each select their own kind. |
| Descriptors.KindTokenRoundTrip | packages/core/test/scanner.spec.ts:267-307 | Each kind's reserved token selects that kind back, so the dispatch is one-to-one. |
| Metadata.InheritedKeyMetadata | packages/core/test/scanner.spec.ts:128-145 | A class that does not define the method itself gets its parent's result, whenever the parent's prototype chain does not lead back to the class. |
| Metadata.ReflectKeyMetadata | packages/core/test/scanner.spec.ts:128-145 | Any result was recorded under the key on a method of that name. A method the class defines itself decides by its own entry. With no entry anywhere the result is undefined. |
| Metadata.ReflectInjectables | packages/core/test/scanner.spec.ts:83-97 | A class is in the result exactly when the key attaches it to the component, at class level or on one of its methods. |
| Metadata.ReflectParamInjectables | packages/core/test/scanner.spec.ts:83-97 | A class is in the result exactly when it is a pipe on a route argument of one of the component's methods. |
| Metadata.DynamicInjectables | packages/core/test/scanner.spec.ts:83-97 | The enhancers registered for a component with a prototype are exactly its guards, interceptors, filters and pipes, plus its parameter pipes. |
| AppConfig.Append | packages/core/test/scanner.spec.ts:267-307 | Only the sequence of the given kind grows, by exactly the one instance; the other three are unchanged. |
| AppConfig.ApplicationConfig.constructor | packages/core/test/scanner.spec.ts:40-49 | A new configuration holds no global guards, interceptors, pipes or filters. |
| AppConfig.ApplicationConfig.AddGlobalGuard | packages/core/test/scanner.spec.ts:278-287 | Appends the guard to the guards and changes nothing else. |
| AppConfig.ApplicationConfig.AddGlobalInterceptor | packages/core/test/scanner.spec.ts:268-277 | Appends the interceptor to the interceptors and changes nothing else. |
| AppConfig.ApplicationConfig.AddGlobalPipe | packages/core/test/scanner.spec.ts:288-297 | Appends the pipe to the pipes and changes nothing else. |
| AppConfig.ApplicationConfig.AddGlobalFilter | packages/core/test/scanner.spec.ts:298-307 | Appends the filter to the filters and changes nothing else. |
| Container.NewWrapper | packages/core/test/scanner.spec.ts:174-242 | A new wrapper carries the provider's token and declaration. It starts resolved only for a `useValue` provider. |
| Container.ModuleAdded | packages/core/test/scanner.spec.ts:55-59 | `addModule` logs the call and keeps the graph valid. A class that is already registered leaves the modules as they are. A new class is appended last, with an empty record. |
| Container.RelatedModuleAdded | packages/core/test/scanner.spec.ts:157-164 | `addRelatedModule` logs the call. It records the import edge only when both modules are registered, and touches no other module or field. |
| Container.ProviderAdded | packages/core/test/scanner.spec.ts:61-68 | `addProvider` logs the call. It puts a new wrapper under the provider's token into that module's providers only, and keeps the graph valid. |
| Container.InjectableAdded | packages/core/test/scanner.spec.ts:115-126 | `addInjectable` logs the call with its arguments. It puts a class wrapper into that module's injectables only. |
| Container.ControllerAdded | packages/core/test/scanner.spec.ts:70-74 | `addController` logs the call. It puts a class wrapper into that module's routes only. |
| Container.ExportAdded | packages/core/test/scanner.spec.ts:76-80 | `addExportedProvider` logs the call. It adds exactly that token to that module's exports only. |
| Container.NestContainer.constructor | packages/core/test/scanner.spec.ts:40-43 | A new container holds no modules and has received no calls. |
| Container.NestContainer.AddModule | packages/core/test/scanner.spec.ts:55-59 | The container's new state is `ModuleAdded` of its old state. |
| Container.NestContainer.AddRelatedModule | packages/core/test/scanner.spec.ts:157-164 | The container's new state is `RelatedModuleAdded` of its old state. |
| Container.NestContainer.AddProvider | packages/core/test/scanner.spec.ts:61-68 | Returns whether the module is registered; the new state is `ProviderAdded` of the old. |
| Container.NestContainer.AddInjectable | packages/core/test/scanner.spec.ts:115-126 | Returns whether the module is registered; the new state is `InjectableAdded` of the old. |
| Container.NestContainer.AddController | packages/core/test/scanner.spec.ts:70-74 | Returns whether the module is registered; the new state is `ControllerAdded` of the old. |
| Container.NestContainer.AddExportedProvider | packages/core/test/scanner.spec.ts:76-80 | Returns whether the module is registered; the new state is `ExportAdded` of the old. |
| ScannerSpec.ModuleStored | packages/core/test/scanner.spec.ts:147-155 | `storeModule` evaluates a forward reference first and then registers the class it yields. It fails with an invalid-module error exactly when nothing is yielded. It only adds empty modules and keeps the graph valid. |
| ScannerSpec.RelatedModuleStored | packages/core/test/scanner.spec.ts:157-172 | `storeRelatedModule` evaluates a forward reference first. It fails with an invalid-module error exactly when the reference is nil. Otherwise it is `addRelatedModule` of the yielded class. |
| ScannerSpec.RelatedModulesStored | packages/core/test/scanner.spec.ts:157-172 | Storing a module's imports fails exactly when one of them is nil. Otherwise it keeps the modules, their order, their exports and graph validity. The edges it records are stated by `Registration.RelatedModulesRegister`. |
| ScannerSpec.ScanForModules | packages/core/test/scanner.spec.ts:55-59 | Discovery adds the visited reference to the registry and never forgets a visited reference. |
| ScannerSpec.DiscoveryGrows | packages/core/test/scanner.spec.ts:55-59 | Successful discovery keeps every earlier record, adds only empty records, keeps the graph valid and stores the module the reference resolves to. |
| ScannerSpec.ImportsGrow | packages/core/test/scanner.spec.ts:22-34 | The import loop of discovery only adds empty records and keeps the graph valid. |
| ScannerSpec.ScanImportsStep | packages/core/test/scanner.spec.ts:22-34 | An import already in the registry is skipped. Any other import is discovered first, and a failure there stops the loop. |
| ScannerSpec.ProviderStored | packages/core/test/scanner.spec.ts:174-242 | A class, or a custom provider of an ordinary token, goes to `addProvider` unchanged and leaves the apply map alone. A reserved one is registered under a fresh key and adds one apply entry naming its module, that key and its reserved token. |
| ScannerSpec.InjectablesStored | packages/core/test/scanner.spec.ts:115-126 | Registering enhancers keeps the modules, their order, their exports and graph validity. What it registers is stated by `Registration.InjectablesRegister`. |
| ScannerSpec.DynamicMetadataStored | packages/core/test/scanner.spec.ts:82-113 | Keeps the modules, their order, their exports and graph validity. What it registers is stated by `Registration.DynamicMetadataRegisters`. |
| ScannerSpec.ProvidersStored | packages/core/test/scanner.spec.ts:61-68 | Registering a module's providers and their enhancers keeps the modules, their exports and graph validity. What it registers is stated by `Registration.ProvidersRegister`. |
| ScannerSpec.ControllersStored | packages/core/test/scanner.spec.ts:70-74 | Registering a module's controllers and their enhancers keeps the modules, their exports and graph validity. What it registers is stated by `Registration.ControllersRegister`. |
| ScannerSpec.ExportsStored | packages/core/test/scanner.spec.ts:76-80 | The module's exports grow by exactly the listed tokens; every other module is unchanged. |
| ScannerSpec.ModuleDependenciesStored | packages/core/test/scanner.spec.ts:61-80 | On success, one module's registration adds exactly its declared exports, leaves every other module's exports alone and keeps graph validity. Its other members are stated by `ScanRegistration.ModuleRegisters`. |
| ScannerSpec.DependenciesStored | packages/core/test/scanner.spec.ts:61-80 | The per-module pass keeps the modules and their order, and keeps graph validity. |
| ScannerSpec.ScanImports | packages/core/test/scanner.spec.ts:22-34 | The import loop of discovery never forgets a visited reference. |
| ScannerSpec.Scan | packages/core/test/scanner.spec.ts:55-80 | A successful scan of a valid graph leaves a valid graph: each module once, each wrapper once in its collection. What it registers is stated by `ScanRegistration.ScanRegisters` and `ScanRegistration.ScanLogs`. |
| ScannerSpec.ApplyTarget | packages/core/test/scanner.spec.ts:243-265 | An apply entry resolves exactly when its module, that module's provider and an apply function for its type exist. It then yields that kind and `modules[moduleKey].providers[providerKey].instance`. |
| Registration.InjectablesRegister | packages/core/test/scanner.spec.ts:115-126 | Storing enhancers makes exactly one `addInjectable(class, token)` call per class, in order. In a registered module each class becomes an injectable with a fresh wrapper and nothing else changes; an unregistered module leaves every record alone. |
| Registration.DynamicMetadataRegisters | packages/core/test/scanner.spec.ts:82-113 | A component with a prototype registers exactly its `DynamicInjectables` as injectables of the token, one `addInjectable` call each. A component without one leaves the graph and the log unchanged. |
| Registration.RelatedModulesRegister | packages/core/test/scanner.spec.ts:157-172 | Storing imports makes one `addRelatedModule(class, token)` call per import, in order. The module's imports gain exactly the imported classes that are registered modules, and nothing else changes. |
| Registration.GlobalEntriesAt | packages/core/test/scanner.spec.ts:191-213 | The `i`-th apply entry of a module's providers belongs to its `i`-th global provider, under the `i`-th fresh key. |
| Registration.StoredProviderAt | packages/core/test/scanner.spec.ts:174-242 | The i-th provider is stored as itself when it is not global. A global one is stored as a custom provider of the fresh key numbered by the global providers before it, with its own recipe. Either way its token is the i-th stored key. |
| Registration.ProviderKeysExactly | packages/core/test/scanner.spec.ts:174-242 | The keys providers are stored under are exactly the tokens of the non-global ones and one fresh key per global one. |
| Registration.ProvidersRegister | packages/core/test/scanner.spec.ts:61-68 | One `addProvider` call per provider. The apply map grows by one entry per global provider, in order. The module's provider keys grow by exactly its providers' keys. Each key holds a fresh wrapper of the last provider stored under it, and every provider already under another key keeps its wrapper. The injectables gain the class providers' enhancers, and nothing else changes. |
| Registration.ControllersRegister | packages/core/test/scanner.spec.ts:70-74 | One `addController` call per controller. Each controller becomes a route with a fresh wrapper, the injectables gain the controllers' enhancers, and nothing else changes. |
| Registration.ExportsLogged | packages/core/test/scanner.spec.ts:76-80 | One `addExportedProvider` call per export; only the module's exports change. |
| ScanRegistration.ModuleRegisters | packages/core/test/scanner.spec.ts:61-80 | One successful iteration registers exactly what the module declares: its imports, its providers under their keys with their wrappers, routes, enhancers and exports. It adds one apply entry per global provider, changes no other module, and makes one call per declared member. |
| ScanRegistration.RecordHolds | packages/core/test/scanner.spec.ts:61-80 | A record registered from a descriptor holds each of its imports that is a module, each non-global provider, each controller, each enhancer and each export. |
| ScanRegistration.DependenciesRegister | packages/core/test/scanner.spec.ts:61-80 | Over distinct registered modules, each listed module holds what it declares and every other module keeps its record. The log gains one call per declared import, provider, controller and export. |
| ScanRegistration.DiscoveryLogs | packages/core/test/scanner.spec.ts:55-59 | Discovery from a reference not yet visited makes one `addModule` call per reference it adds to the registry. |
| ScanRegistration.ImportsLog | packages/core/test/scanner.spec.ts:22-34 | The import loop of discovery makes one `addModule` call per reference it adds to the registry. |
| ScanRegistration.ScanRegisters | packages/core/test/scanner.spec.ts:55-80 | After a successful scan, every stored module holds what its descriptor declares. Every visited reference names a module whose record lists each of its imports. |
| ScanRegistration.ScanLogs | packages/core/test/scanner.spec.ts:55-80 | A successful scan makes one `addModule` call per visited reference, and one call per declared import, provider, controller and export of the stored modules. |
| ScanRegistration.ModuleResolves | packages/core/test/scanner.spec.ts:191-213 | When a module keeps its provider keys, gains those of its providers and gets one apply entry per global provider, as a registered module does, every other module is kept, entries that resolved still resolve and the new entries resolve too. |
| ScanRegistration.DependenciesResolve | packages/core/test/scanner.spec.ts:191-213 | The per-module loop keeps every apply entry resolvable. |
| ScanRegistration.ScanResolves | packages/core/test/scanner.spec.ts:243-265 | When every apply entry resolved before a successful scan, as an empty map does, every entry resolves after it, and applying the map reports no error. |
| Scanner.DependenciesScanner.constructor | packages/core/test/scanner.spec.ts:40-49 | A new scanner holds the given container and configuration and an empty apply map. |
| Scanner.DependenciesScanner.Scan | packages/core/test/scanner.spec.ts:55-80 | `scan` reports an error exactly when `ScannerSpec.Scan` fails. On success, the container and apply map are what `ScannerSpec.Scan` yields, so `ScanRegisters` and `ScanLogs` hold of them. |
| Scanner.DependenciesScanner.StoreModule | packages/core/test/scanner.spec.ts:147-155 | Succeeds exactly when `ModuleStored` does, and then leaves its graph; otherwise the container is untouched. |
| Scanner.DependenciesScanner.ScanForModules | packages/core/test/scanner.spec.ts:55-59 | Succeeds exactly when `ScannerSpec.ScanForModules` does, and then leaves its graph and registry. |
| Scanner.DependenciesScanner.ScanImportsOf | packages/core/test/scanner.spec.ts:22-34 | The import loop succeeds exactly when `ScanImports` does, and then leaves its graph and registry. |
| Scanner.DependenciesScanner.ScanModulesForDependencies | packages/core/test/scanner.spec.ts:61-80 | The per-module pass over the modules as discovery left them, in registration order, matches `DependenciesStored`, so `DependenciesRegister` holds of it. |
| Scanner.DependenciesScanner.ReflectRelatedModules | packages/core/test/scanner.spec.ts:157-172 | Fails exactly when `RelatedModulesStored` does, and otherwise leaves its graph, so `RelatedModulesRegister` holds of it. |
| Scanner.DependenciesScanner.StoreRelatedModule | packages/core/test/scanner.spec.ts:157-172 | Fails exactly when the reference is nil after evaluation; otherwise the container's new state is `RelatedModuleStored`'s. |
| Scanner.DependenciesScanner.ReflectProviders | packages/core/test/scanner.spec.ts:61-68 | The container and apply map end as `ProvidersStored` says, so `ProvidersRegister` holds of them. |
| Scanner.DependenciesScanner.ReflectControllers | packages/core/test/scanner.spec.ts:70-74 | The container ends as `ControllersStored` says, so `ControllersRegister` holds of it. |
| Scanner.DependenciesScanner.ReflectExports | packages/core/test/scanner.spec.ts:76-80 | The container ends as `ExportsStored` says. |
| Scanner.DependenciesScanner.ReflectDynamicMetadata | packages/core/test/scanner.spec.ts:82-113 | The container ends as `DynamicMetadataStored` says, so `DynamicMetadataRegisters` holds of it. The result is false exactly when there were enhancers to store and the module is not registered. |
| Scanner.DependenciesScanner.StoreProvider | packages/core/test/scanner.spec.ts:174-242 | The container and apply map end as `ProviderStored` says; the result says whether the module is registered. |
| Scanner.DependenciesScanner.StoreInjectable | packages/core/test/scanner.spec.ts:115-126 | Calls `addInjectable` with the component and the token. |
| Scanner.DependenciesScanner.StoreRoute | packages/core/test/scanner.spec.ts:70-74 | Calls `addController` with the route and the token. |
| Scanner.DependenciesScanner.StoreExportedProvider | packages/core/test/scanner.spec.ts:76-80 | Calls `addExportedProvider` with the token and the module. |
| Scanner.DependenciesScanner.ApplyProvider | packages/core/test/scanner.spec.ts:267-307 | A reserved type appends the instance to exactly its own sequence of the configuration. Any other type changes nothing and reports it. |
| Scanner.DependenciesScanner.ApplyApplicationProviders | packages/core/test/scanner.spec.ts:243-265 | The configuration and the error end as `ApplyAll` of the apply map says. |
| ScannerProperties.ApplyAllSucceeds | packages/core/test/scanner.spec.ts:243-265 | Applying the apply map reports no error exactly when every entry resolves. |
| ScannerProperties.ApplyAllGlobals | packages/core/test/scanner.spec.ts:243-265 | When every entry resolves, each global sequence gains exactly the resolved instances of the entries of its kind, in apply-map order. |
| ScannerProperties.ApplyAllFirstError | packages/core/test/scanner.spec.ts:243-265 | A reported error is the error of the first entry that does not resolve; all entries before it resolve. |
| ScannerProperties.ApplyAllAppends | packages/core/test/scanner.spec.ts:243-265 | Whatever the outcome, applying the apply map only appends: each global sequence keeps what it held before. |
| ScannerProperties.GlobalProviderApplies | packages/core/test/scanner.spec.ts:191-213 | A reserved provider stored into a registered module adds exactly one apply entry naming that module, is registered under its fresh key, and its entry resolves to its own kind and its wrapper's instance. |
| ScannerProperties.PlainProviderStored | packages/core/test/scanner.spec.ts:214-240 | A non-reserved provider leaves the apply map as it was, is called into `addProvider` with its module, and is registered under its own token as a new wrapper. |
| ScannerProperties.DeclaredExports | packages/core/test/scanner.spec.ts:22-27 | A token is declared exported by a module exactly when its descriptor's `exports` lists it. |
| ScannerProperties.DependenciesExports | packages/core/test/scanner.spec.ts:76-80 | Over distinct modules, each listed module's exports grow by exactly its declared exports, and every other module keeps its own. |
| ScannerProperties.ScanExports | packages/core/test/scanner.spec.ts:76-80 | After a successful scan, every module exports exactly what it exported before plus the tokens its `exports` lists, and nothing else. |
| ScannerProperties.DiscoveryClosed | packages/core/test/scanner.spec.ts:55-59 | Each reference discovery adds to the registry names a stored module, and every import of that module is in the registry. |
| ScannerProperties.ImportsClosed | packages/core/test/scanner.spec.ts:22-34 | What the import loop adds is closed under imports, and every import from the current one on ends up in the registry. |
| ScannerProperties.DiscoveryComplete | packages/core/test/scanner.spec.ts:55-59 | Discovery from the root with an empty registry registers the root and every module reachable from it through imports, each one stored. |
| ScannerFixture.DiscoverFixture | packages/core/test/scanner.spec.ts:55-59 | Discovery of `TestModule` stores `TestModule`, then `AnotherTestModule`, with two `addModule` calls, and stops. |
| ScannerFixture.TestModuleDependencies | packages/core/test/scanner.spec.ts:29-34 | Registering `TestModule` records its import of `AnotherTestModule`, its one provider and its one controller. |
| ScannerFixture.AnotherTestModuleDependencies | packages/core/test/scanner.spec.ts:22-27 | Registering `AnotherTestModule` records its one provider, its one controller and its one exported token. |
| ScannerFixture.RegisterBoth | packages/core/test/scanner.spec.ts:61-80 | The per-module pass over the two discovered modules, in order, yields both final records and the full call log. |
| ScannerFixture.ScanFixture | packages/core/test/scanner.spec.ts:55-80 | Scanning `TestModule` into an empty container succeeds with the modules `TestModule` and `AnotherTestModule`, in that order, and exactly the fixture's call log. The apply map stays empty. |
| ScannerFixture.ScanFixtureCounts | packages/core/test/scanner.spec.ts:55-80 | By the general `ScanLogs`, scanning the fixture makes two `addModule`, one `addRelatedModule`, two `addProvider`, two `addController` and one `addExportedProvider` call. |
| ScannerFixture.KeyMetadataFixture | packages/core/test/scanner.spec.ts:128-145 | Key metadata of `TestProvider.method` is undefined. Under the guards key, `CompMethod.method` has exactly `[Guard]`. |
| ScannerFixture.StoreProviderFixture | packages/core/test/scanner.spec.ts:177-240 | A class provider, and a custom provider of `'CUSTOM'`, each produce one `addProvider(provider, token)` call and an empty apply map. |
| ScannerFixture.StoreGlobalProviderFixture | packages/core/test/scanner.spec.ts:191-213 | A custom `APP_INTERCEPTOR` provider still produces an `addProvider` call. It leaves an apply map of length 1 whose entry's `moduleKey` is the token. |
| ScannerFixture.StoreModuleFixture | packages/core/test/scanner.spec.ts:147-172 | A forward reference is evaluated and its class stored. `storeRelatedModule` of a nil reference, or of a forward reference to nothing, fails with an invalid-module error. |
| ScannerFixture.ApplyFixture | packages/core/test/scanner.spec.ts:243-265 | An `APP_GUARD` entry hands its provider's instance to the guards. An entry naming an unknown module reports an undefined-module error. |
| InjectorModel.InstanceLoaded | packages/core/injector/instance-loader.ts:52-58 | An instance step keeps the graph's shape and every instance already there. It leaves the wrapper it is given resolved and changes no other module. |
| InjectorModel.Injector.LoadPrototypeOfInstance | packages/core/injector/instance-loader.ts:43-50 | Records one prototype step tagged with the wrapper's own collection and module. |
| InjectorModel.Injector.LoadInstanceOfProvider | packages/core/injector/instance-loader.ts:52-58 | Records one provider instance step of the owning module and resolves that wrapper. |
| InjectorModel.Injector.LoadInstanceOfInjectable | packages/core/injector/instance-loader.ts:83-89 | Records one injectable instance step of the owning module and resolves that wrapper. |
| InjectorModel.Injector.LoadInstanceOfRoute | packages/core/injector/instance-loader.ts:66-72 | Records one route instance step of the owning module and resolves that wrapper. |
| Loader.InstanceLoader.constructor | packages/core/injector/instance-loader.ts:9-13 | The loader holds the given container and a fresh injector with an empty trace. |
| Loader.InstanceLoader.CreateInstancesOfDependencies | packages/core/injector/instance-loader.ts:15-20 | The injector sees exactly `LoaderTrace` of the modules as they were. Every wrapper of every module ends up with an instance. The modules and their wrapper keys are unchanged, and the container receives no calls. |
| Loader.InstanceLoader.CreatePrototypes | packages/core/injector/instance-loader.ts:22-28 | Appends the prototype steps of every module, in the container's module order, and creates no instance. |
| Loader.InstanceLoader.CreateModulePrototypes | packages/core/injector/instance-loader.ts:23-27 | For one module, appends the prototype steps of its providers, then its injectables, then its routes. |
| Loader.InstanceLoader.CreateInstances | packages/core/injector/instance-loader.ts:30-41 | Appends the instance steps of every module. Every wrapper ends up with an instance, and the graph keeps its shape. |
| Loader.InstanceLoader.CreateModuleInstances | packages/core/injector/instance-loader.ts:32-39 | For one module, appends provider, then injectable, then route instance steps and then the log line. Every wrapper of that module ends up with an instance. |
| Loader.InstanceLoader.CreatePrototypesOfProviders | packages/core/injector/instance-loader.ts:43-50 | One prototype step per provider wrapper, in the map's order, tagged with the providers collection. |
| Loader.InstanceLoader.CreatePrototypesOfRoutes | packages/core/injector/instance-loader.ts:60-64 | One prototype step per route wrapper, in the map's order, tagged with the routes collection. |
| Loader.InstanceLoader.CreatePrototypesOfInjectables | packages/core/injector/instance-loader.ts:74-81 | One prototype step per injectable wrapper, in the map's order, tagged with the injectables collection. |
| Loader.InstanceLoader.CreateInstancesOfProviders | packages/core/injector/instance-loader.ts:52-58 | One `loadInstanceOfProvider` step per provider wrapper, with its owning module. Every provider ends up with an instance. |
| Loader.InstanceLoader.CreateInstancesOfRoutes | packages/core/injector/instance-loader.ts:66-72 | One `loadInstanceOfRoute` step per route wrapper, with its owning module. Every route ends up with an instance. |
| Loader.InstanceLoader.CreateInstancesOfInjectables | packages/core/injector/instance-loader.ts:83-89 | One `loadInstanceOfInjectable` step per injectable wrapper, with its owning module. Every injectable ends up with an instance. |
| LoaderProperties.PrototypesBeforeInstances | packages/core/injector/instance-loader.ts:15-20 | In the loader's trace, no prototype step comes after an instance step or a log line. |
| LoaderProperties.PrototypePassCount | packages/core/injector/instance-loader.ts:22-28 | Over distinct modules, the prototype pass holds each wrapper's prototype step exactly once, tagged with its collection and module, and nothing else. |
| LoaderProperties.InstancePassCount | packages/core/injector/instance-loader.ts:30-41 | Over distinct modules, the instance pass holds each wrapper's instance step and each module's log line exactly once, and nothing else. |
| LoaderProperties.ExactlyOnce | packages/core/injector/instance-loader.ts:22-41 | Over a valid graph, the trace holds exactly one prototype step and one instance step for each wrapper of each collection of each module, and one log line per module. Every other event occurs zero times. |
| LoaderProperties.TraceCount | packages/core/injector/instance-loader.ts:22-41 | An event occurs in the trace once if it names a present wrapper, or a log line of a registered module, and zero times otherwise. |
| LoaderProperties.PrototypePassOrdered | packages/core/injector/instance-loader.ts:22-28 | Within each module, prototype steps run in the order providers, injectables, routes. |
| LoaderProperties.InstancePassOrdered | packages/core/injector/instance-loader.ts:30-41 | Within each module, instance steps run in the order providers, injectables, routes, then the log line. |
| LoaderProperties.InModuleOrder | packages/core/injector/instance-loader.ts:30-39 | For each module and pass, every provider step precedes every injectable step, which precedes every route step, which precedes the module's log line. |
| LoaderProperties.ShapeDeterminesTrace | packages/core/injector/instance-loader.ts:16-41 | Two graphs with the same modules and the same wrapper keys produce the same trace, so cached instances do not change what the loader does. |

## Left out

- The Injector, `NestContainer`, `Module` and the scanner implementation are not part of this model. The container is modelled only as the test's mock sees it: one logged call per registration. Its registration behaviour is assumed, not taken from its source. `addModule` of a class already registered changes no module. `addRelatedModule` records an edge only when both modules are registered. A registration into an unregistered module only logs the call.
- Dependency resolution, unknown dependencies, circular dependencies and export visibility are left out; they live inside the Injector. An instance step only resolves the wrapper it is given.
- `Promise.all` over modules and over the wrappers of a collection is a sequential loop in the map's order. Any order the model fixes beyond the in-module sub-phase order is an artefact of that choice.
- The logger and the text of `MODULE_INIT_MESSAGE` are left out; a log line is the `Log(module)` event on the injector's trace.
- Reflection, decorators and sinon mocks and stubs are not modelled. Decorator metadata is explicit data in `Metadata.Reflection`, and the methods a metadata scanner yields are listed per class.
- The random provider key of a global provider is a parameter, `keyGen`, applied to the current length of the apply map.
- Dynamic modules, module scope, and modules listed in `exports` (transitive re-export) are left out. An export is a token.
- The container's "unknown export" error is left out, because that check lives in the container's source.
- Exceptions are error results (`ScanError`), and a failure stops the scan where the exception would propagate. When the apply-function map has no function for an entry's type, calling it throws in the source; the model returns the `NotAFunction` error instead.
- Forward references are compared structurally. The registry's `includes` check compares thunks by identity, so two distinct thunks to the same class are two references in the source but one in the model if they are equal as values.
- `ScanRegistration.ScanRegisters` and `DependenciesRegister`: after the whole loop, state which provider tokens each module holds, not the wrapper under each key. The wrappers are stated for each iteration by `ModuleRegisters`, because a global provider's fresh key depends on the apply map at that iteration.
- `Registration.ProvidersRegister`, `ControllersRegister` and `ScanRegistration.ScanLogs`: for providers, controllers and exports the call log is stated by counts, not by order; the imports' and enhancers' calls are stated in order.
- `ScannerSpec.ScanForModules`: its own contract states only that the registry grows. The rest of discovery's guarantees are stated by `ScannerSpec.DiscoveryGrows` and `ScannerProperties.DiscoveryComplete`.
- `Scanner.DependenciesScanner.ReflectProviders`, `ReflectControllers` and `ReflectExports` require the module to be registered. They are only called on registered modules.
- The cache-manager interface, the three HTTP exception classes and `HttpAdapterHost` hold no scanning or loading logic and are not modelled.
