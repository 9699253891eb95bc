/**
 * The scanner's reference scenarios as concrete instances of the model:
 * `TestModule` importing `AnotherTestModule`, each with one provider and one
 * controller, the second exporting its provider; the `@UseGuards` method of
 * `CompMethod`; and the single-call cases of `storeProvider`,
 * `storeModule`, `storeRelatedModule` and `applyApplicationProviders`.
 */
module ScannerFixture {
  import opened Wrappers
  import opened OrderedMaps
  import opened Descriptors
  import opened Metadata
  import opened Container
  import opened AppConfig
  import opened ScannerSpec
  import opened ScanRegistration


  const Fixture: Universe := map[
    "AnotherTestModule" := ModuleDescriptor([], [ClassProvider("TestProvider")], ["TestRoute"], ["TestProvider"]),
    "TestModule" := ModuleDescriptor([Direct("AnotherTestModule")], [ClassProvider("TestProvider")], ["TestRoute"], [])
  ]

  /** No decorator metadata anywhere. */
  const NoMetadata := Reflection(map[], map[], map[], map[])

  /** The two `addModule` calls of discovery. */
  const DiscoveryCalls: seq<Call> := [] + [AddModuleCall("TestModule")] + [AddModuleCall("AnotherTestModule")]

  /** The calls the container receives when the fixture is scanned into an empty container. */
  const FixtureCalls: seq<Call> := DiscoveryCalls
    + [AddRelatedModuleCall("AnotherTestModule", "TestModule")]
    + [AddProviderCall(ClassProvider("TestProvider"), "TestModule")]
    + [AddControllerCall("TestRoute", "TestModule")]
    + [AddProviderCall(ClassProvider("TestProvider"), "AnotherTestModule")]
    + [AddControllerCall("TestRoute", "AnotherTestModule")]
    + [AddExportedProviderCall("TestProvider", "AnotherTestModule")]

  /** Both modules, as discovery leaves them: registered and empty. */
  const Discovered: Graph := Graph(
    OMap(["TestModule", "AnotherTestModule"], map["TestModule" := EmptyRecord, "AnotherTestModule" := EmptyRecord]),
    DiscoveryCalls)

  /** Discovery visits `TestModule`, then its import `AnotherTestModule`, and stops. */
  lemma DiscoverFixture()
    ensures ScanForModules(Fixture, EmptyGraph, Direct("TestModule"), {})
      == Success(Discovery(Discovered, {Direct("TestModule"), Direct("AnotherTestModule")}))
  {
    var g0 := ModuleAdded(EmptyGraph, "TestModule");
    var g1 := ModuleAdded(g0, "AnotherTestModule");
    assert g1 == Discovered;
    var v0 := {Direct("TestModule")};
    var reg := {Direct("TestModule"), Direct("AnotherTestModule")};
    assert DescriptorOf(Fixture, "TestModule").imports == [Direct("AnotherTestModule")];
    assert DescriptorOf(Fixture, "AnotherTestModule").imports == [];
    ScanForModulesUnfold(Fixture, g0, Direct("AnotherTestModule"), v0);
    assert v0 + {Direct("AnotherTestModule")} == reg;
    assert ScanImports(Fixture, g1, "AnotherTestModule", 0, reg) == Success(Discovery(g1, reg));
    assert ScanForModules(Fixture, g0, Direct("AnotherTestModule"), v0) == Success(Discovery(g1, reg));
    assert ScanImports(Fixture, g1, "TestModule", 1, reg) == Success(Discovery(g1, reg));
    ScanImportsStep(Fixture, g0, "TestModule", 0, v0);
    assert Direct("AnotherTestModule") !in v0;
    assert ScanImports(Fixture, g0, "TestModule", 0, v0) == Success(Discovery(g1, reg));
    ScanForModulesUnfold(Fixture, EmptyGraph, Direct("TestModule"), {});
    assert {} + {Direct("TestModule")} == v0;
  }

  function Single(t: Token): OMap<Wrapper> {
    OMap([t], map[t := NewWrapper(ClassProvider(t))])
  }

  /** `TestModule` after its dependencies are stored. */
  const TestModuleRecord := ModuleRecord(Single("TestProvider"), Empty(), Single("TestRoute"), ["AnotherTestModule"], {})
  /** `AnotherTestModule` after its dependencies are stored. */
  const AnotherTestModuleRecord := ModuleRecord(Single("TestProvider"), Empty(), Single("TestRoute"), [], {"TestProvider"})

  lemma SingleIsPut(t: Token)
    ensures Empty<Wrapper>().Put(t, NewWrapper(ClassProvider(t))) == Single(t)
  {
    assert [] + [t] == [t];
  }

  /** The two modules with the given records, and the calls so far. */
  function Both(tm: ModuleRecord, atm: ModuleRecord, calls: seq<Call>): Graph {
    Graph(OMap(["TestModule", "AnotherTestModule"], map["TestModule" := tm, "AnotherTestModule" := atm]), calls)
  }

  /** One step of the per-module registration, with the module records it leaves. */
  lemma RegisterInto(g: Graph, tm: ModuleRecord, atm: ModuleRecord, token: Token, rec: ModuleRecord, call: Call)
    requires g == Both(tm, atm, g.calls) && (token == "TestModule" || token == "AnotherTestModule")
    ensures Replace(g, token, rec, call)
      == if token == "TestModule" then Both(rec, atm, g.calls + [call]) else Both(tm, rec, g.calls + [call])
  {
    var r := Replace(g, token, rec, call);
    if token == "TestModule" {
      assert r.modules.vals == map["TestModule" := rec, "AnotherTestModule" := atm];
    } else {
      assert r.modules.vals == map["TestModule" := tm, "AnotherTestModule" := rec];
    }
  }

  /** Without decorator metadata no class has enhancers. */
  lemma NoEnhancers(c: Token)
    ensures DynamicInjectables(NoMetadata, c) == []
  {
  }

  /** One class provider without metadata is just `addProvider`. */
  lemma OneClassProvider(st: ScanState, p: Token, token: Token, keyGen: nat -> Token)
    ensures ProvidersStored(st, NoMetadata, [ClassProvider(p)], token, keyGen)
      == st.(graph := ProviderAdded(st.graph, ClassProvider(p), token))
  {
    NoEnhancers(p);
    assert [ClassProvider(p)][1..] == [];
  }

  /** One controller without metadata is just `addController`. */
  lemma OneController(g: Graph, c: Token, token: Token)
    ensures ControllersStored(g, NoMetadata, [c], token) == ControllerAdded(g, c, token)
  {
    NoEnhancers(c);
    assert [c][1..] == [];
  }

  /** `addProvider` of a class provider into one of the two modules. */
  lemma ProviderInto(tm: ModuleRecord, atm: ModuleRecord, calls: seq<Call>, p: Token, token: Token)
    requires token == "TestModule" || token == "AnotherTestModule"
    ensures var call := AddProviderCall(ClassProvider(p), token);
      ProviderAdded(Both(tm, atm, calls), ClassProvider(p), token)
        == if token == "TestModule" then Both(tm.(providers := tm.providers.Put(p, NewWrapper(ClassProvider(p)))), atm, calls + [call])
           else Both(tm, atm.(providers := atm.providers.Put(p, NewWrapper(ClassProvider(p)))), calls + [call])
  {
    var g := Both(tm, atm, calls);
    var rec := g.modules.vals[token];
    RegisterInto(g, tm, atm, token, rec.(providers := rec.providers.Put(p, NewWrapper(ClassProvider(p)))), AddProviderCall(ClassProvider(p), token));
  }

  /** `addController` into one of the two modules. */
  lemma ControllerInto(tm: ModuleRecord, atm: ModuleRecord, calls: seq<Call>, c: Token, token: Token)
    requires token == "TestModule" || token == "AnotherTestModule"
    ensures var call := AddControllerCall(c, token);
      ControllerAdded(Both(tm, atm, calls), c, token)
        == if token == "TestModule" then Both(tm.(routes := tm.routes.Put(c, NewWrapper(ClassProvider(c)))), atm, calls + [call])
           else Both(tm, atm.(routes := atm.routes.Put(c, NewWrapper(ClassProvider(c)))), calls + [call])
  {
    var g := Both(tm, atm, calls);
    var rec := g.modules.vals[token];
    RegisterInto(g, tm, atm, token, rec.(routes := rec.routes.Put(c, NewWrapper(ClassProvider(c)))), AddControllerCall(c, token));
  }

  // `TestModule`: its import, its provider, its controller; it exports nothing.

  lemma TestModuleImports(calls: seq<Call>)
    ensures RelatedModulesStored(Both(EmptyRecord, EmptyRecord, calls), [Direct("AnotherTestModule")], "TestModule")
      == Success(Both(EmptyRecord.(imports := ["AnotherTestModule"]), EmptyRecord, calls + [AddRelatedModuleCall("AnotherTestModule", "TestModule")]))
  {
    var g0 := Both(EmptyRecord, EmptyRecord, calls);
    assert [Direct("AnotherTestModule")][1..] == [];
    var g1 := RelatedModuleAdded(g0, "AnotherTestModule", "TestModule");
    assert RelatedModulesStored(g0, [Direct("AnotherTestModule")], "TestModule") == Success(g1);
    assert EmptyRecord.imports + ["AnotherTestModule"] == ["AnotherTestModule"];
    RegisterInto(g0, EmptyRecord, EmptyRecord, "TestModule", EmptyRecord.(imports := ["AnotherTestModule"]), AddRelatedModuleCall("AnotherTestModule", "TestModule"));
  }

  lemma TestModuleProviders(calls: seq<Call>, keyGen: nat -> Token)
    ensures var r1 := EmptyRecord.(imports := ["AnotherTestModule"]);
      ProvidersStored(ScanState(Both(r1, EmptyRecord, calls), []), NoMetadata, [ClassProvider("TestProvider")], "TestModule", keyGen)
        == ScanState(Both(r1.(providers := Single("TestProvider")), EmptyRecord, calls + [AddProviderCall(ClassProvider("TestProvider"), "TestModule")]), [])
  {
    var r1 := EmptyRecord.(imports := ["AnotherTestModule"]);
    OneClassProvider(ScanState(Both(r1, EmptyRecord, calls), []), "TestProvider", "TestModule", keyGen);
    ProviderInto(r1, EmptyRecord, calls, "TestProvider", "TestModule");
    SingleIsPut("TestProvider");
  }

  lemma TestModuleControllers(calls: seq<Call>)
    ensures var r2 := EmptyRecord.(imports := ["AnotherTestModule"], providers := Single("TestProvider"));
      ControllersStored(Both(r2, EmptyRecord, calls), NoMetadata, ["TestRoute"], "TestModule")
        == Both(TestModuleRecord, EmptyRecord, calls + [AddControllerCall("TestRoute", "TestModule")])
  {
    var r2 := EmptyRecord.(imports := ["AnotherTestModule"], providers := Single("TestProvider"));
    OneController(Both(r2, EmptyRecord, calls), "TestRoute", "TestModule");
    ControllerInto(r2, EmptyRecord, calls, "TestRoute", "TestModule");
    SingleIsPut("TestRoute");
    assert r2.(routes := Single("TestRoute")) == TestModuleRecord;
  }

  /** The calls `TestModule`'s import, provider and controller add. */
  function TestModuleCalls(calls: seq<Call>): seq<Call> {
    calls
      + [AddRelatedModuleCall("AnotherTestModule", "TestModule")]
      + [AddProviderCall(ClassProvider("TestProvider"), "TestModule")]
      + [AddControllerCall("TestRoute", "TestModule")]
  }

  lemma TestModuleDependencies(calls: seq<Call>, keyGen: nat -> Token)
    ensures ModuleDependenciesStored(Fixture, NoMetadata, ScanState(Both(EmptyRecord, EmptyRecord, calls), []), "TestModule", keyGen)
      == Success(ScanState(Both(TestModuleRecord, EmptyRecord, TestModuleCalls(calls)), []))
  {
    TestModuleImports(calls);
    TestModuleProviders(calls + [AddRelatedModuleCall("AnotherTestModule", "TestModule")], keyGen);
    TestModuleControllers(calls + [AddRelatedModuleCall("AnotherTestModule", "TestModule")] + [AddProviderCall(ClassProvider("TestProvider"), "TestModule")]);
    assert EmptyRecord.(imports := ["AnotherTestModule"]).(providers := Single("TestProvider"))
      == EmptyRecord.(imports := ["AnotherTestModule"], providers := Single("TestProvider"));
  }

  // `AnotherTestModule`: no import, its provider, its controller, and the export of its provider.

  lemma AnotherTestModuleProviders(calls: seq<Call>, keyGen: nat -> Token)
    ensures ProvidersStored(ScanState(Both(TestModuleRecord, EmptyRecord, calls), []), NoMetadata, [ClassProvider("TestProvider")], "AnotherTestModule", keyGen)
      == ScanState(Both(TestModuleRecord, EmptyRecord.(providers := Single("TestProvider")), calls + [AddProviderCall(ClassProvider("TestProvider"), "AnotherTestModule")]), [])
  {
    OneClassProvider(ScanState(Both(TestModuleRecord, EmptyRecord, calls), []), "TestProvider", "AnotherTestModule", keyGen);
    ProviderInto(TestModuleRecord, EmptyRecord, calls, "TestProvider", "AnotherTestModule");
    SingleIsPut("TestProvider");
  }

  lemma AnotherTestModuleControllers(calls: seq<Call>)
    ensures var r2 := EmptyRecord.(providers := Single("TestProvider"));
      ControllersStored(Both(TestModuleRecord, r2, calls), NoMetadata, ["TestRoute"], "AnotherTestModule")
        == Both(TestModuleRecord, r2.(routes := Single("TestRoute")), calls + [AddControllerCall("TestRoute", "AnotherTestModule")])
  {
    var r2 := EmptyRecord.(providers := Single("TestProvider"));
    OneController(Both(TestModuleRecord, r2, calls), "TestRoute", "AnotherTestModule");
    ControllerInto(TestModuleRecord, r2, calls, "TestRoute", "AnotherTestModule");
    SingleIsPut("TestRoute");
  }

  lemma AnotherTestModuleExports(calls: seq<Call>)
    ensures var r3 := EmptyRecord.(providers := Single("TestProvider"), routes := Single("TestRoute"));
      ExportsStored(Both(TestModuleRecord, r3, calls), ["TestProvider"], "AnotherTestModule")
        == Both(TestModuleRecord, AnotherTestModuleRecord, calls + [AddExportedProviderCall("TestProvider", "AnotherTestModule")])
  {
    var r3 := EmptyRecord.(providers := Single("TestProvider"), routes := Single("TestRoute"));
    var g3 := Both(TestModuleRecord, r3, calls);
    assert ["TestProvider"][1..] == [];
    assert r3.(exports := r3.exports + {"TestProvider"}) == AnotherTestModuleRecord;
    RegisterInto(g3, TestModuleRecord, r3, "AnotherTestModule", AnotherTestModuleRecord, AddExportedProviderCall("TestProvider", "AnotherTestModule"));
  }

  /** The calls `AnotherTestModule`'s provider, controller and export add. */
  function AnotherTestModuleCalls(calls: seq<Call>): seq<Call> {
    calls
      + [AddProviderCall(ClassProvider("TestProvider"), "AnotherTestModule")]
      + [AddControllerCall("TestRoute", "AnotherTestModule")]
      + [AddExportedProviderCall("TestProvider", "AnotherTestModule")]
  }

  lemma AnotherTestModuleDependencies(calls: seq<Call>, keyGen: nat -> Token)
    ensures ModuleDependenciesStored(Fixture, NoMetadata, ScanState(Both(TestModuleRecord, EmptyRecord, calls), []), "AnotherTestModule", keyGen)
      == Success(ScanState(Both(TestModuleRecord, AnotherTestModuleRecord, AnotherTestModuleCalls(calls)), []))
  {
    var g0 := Both(TestModuleRecord, EmptyRecord, calls);
    assert DescriptorOf(Fixture, "AnotherTestModule") == ModuleDescriptor([], [ClassProvider("TestProvider")], ["TestRoute"], ["TestProvider"]);
    assert RelatedModulesStored(g0, [], "AnotherTestModule") == Success(g0);
    var c1 := calls + [AddProviderCall(ClassProvider("TestProvider"), "AnotherTestModule")];
    var r2 := EmptyRecord.(providers := Single("TestProvider"));
    var st2 := ScanState(Both(TestModuleRecord, r2, c1), []);
    var g3 := Both(TestModuleRecord, r2.(routes := Single("TestRoute")), c1 + [AddControllerCall("TestRoute", "AnotherTestModule")]);
    AnotherTestModuleProviders(calls, keyGen);
    AnotherTestModuleControllers(c1);
    ModuleDependenciesSteps(Fixture, NoMetadata, ScanState(g0, []), "AnotherTestModule", keyGen, g0, st2, g3);
    assert r2.(routes := Single("TestRoute")) == EmptyRecord.(providers := Single("TestProvider"), routes := Single("TestRoute"));
    AnotherTestModuleExports(c1 + [AddControllerCall("TestRoute", "AnotherTestModule")]);
  }

  /**
   * Scanning `TestModule` into an empty container stores two modules, two
   * providers and two controllers, exactly one exported provider, and
   * leaves the apply map empty.
   */
  lemma ScanFixture(keyGen: nat -> Token)
    ensures var res := Scan(Fixture, NoMetadata, ScanState(EmptyGraph, []), Direct("TestModule"), keyGen);
      && res.Success?
      && res.value.applyMap == []
      && res.value.graph.modules.keys == ["TestModule", "AnotherTestModule"]
      && res.value.graph.calls == FixtureCalls
  {
    EmptyGraphValid();
    DiscoverFixture();
    RegisterBoth(keyGen);
  }

  /**
   * The calls of scanning the fixture, counted by the general account of a
   * scan: two `addModule` calls for the two visited references, and one
   * call per declared import, provider, controller and export.
   */
  lemma ScanFixtureCounts(keyGen: nat -> Token)
    ensures var res := Scan(Fixture, NoMetadata, ScanState(EmptyGraph, []), Direct("TestModule"), keyGen);
      res.Success? ==>
        && Count(res.value.graph.calls, IsModuleCall) == 2
        && Count(res.value.graph.calls, IsRelatedModuleCall) == 1
        && Count(res.value.graph.calls, IsProviderCall) == 2
        && Count(res.value.graph.calls, IsControllerCall) == 2
        && Count(res.value.graph.calls, IsExportCall) == 1
  {
    EmptyGraphValid();
    DiscoverFixture();
    ScanLogs(Fixture, NoMetadata, ScanState(EmptyGraph, []), Direct("TestModule"), keyGen);
    FixtureDeclared();
    FixtureRegistry();
    var res := Scan(Fixture, NoMetadata, ScanState(EmptyGraph, []), Direct("TestModule"), keyGen);
    if res.Success? {
      CountsFromEmpty(res.value.graph, 2, 1, 2, 2, 1);
    }
  }

  /** `scanModulesForDependencies` over the two discovered modules, in registration order. */
  lemma RegisterBoth(keyGen: nat -> Token)
    ensures DependenciesStored(Fixture, NoMetadata, ScanState(Discovered, []), ["TestModule", "AnotherTestModule"], keyGen)
      == Success(ScanState(Both(TestModuleRecord, AnotherTestModuleRecord, FixtureCalls), []))
  {
    assert Discovered == Both(EmptyRecord, EmptyRecord, DiscoveryCalls);
    TestModuleDependencies(DiscoveryCalls, keyGen);
    RegisterLast(TestModuleCalls(DiscoveryCalls), keyGen);
    assert ["TestModule", "AnotherTestModule"][1..] == ["AnotherTestModule"];
    assert AnotherTestModuleCalls(TestModuleCalls(DiscoveryCalls)) == FixtureCalls;
  }

  lemma RegisterLast(calls: seq<Call>, keyGen: nat -> Token)
    ensures DependenciesStored(Fixture, NoMetadata, ScanState(Both(TestModuleRecord, EmptyRecord, calls), []), ["AnotherTestModule"], keyGen)
      == Success(ScanState(Both(TestModuleRecord, AnotherTestModuleRecord, AnotherTestModuleCalls(calls)), []))
  {
    AnotherTestModuleDependencies(calls, keyGen);
    OneModule(Fixture, NoMetadata, ScanState(Both(TestModuleRecord, EmptyRecord, calls), []), "AnotherTestModule", keyGen);
  }

  /** `scanModulesForDependencies` over a single module is that module's step. */
  lemma OneModule(u: Universe, refl: Reflection, st: ScanState, t: Token, keyGen: nat -> Token)
    requires t in st.graph.modules.vals
    ensures DependenciesStored(u, refl, st, [t], keyGen) == ModuleDependenciesStored(u, refl, st, t, keyGen)
  {
    assert [t][1..] == [];
  }

  lemma FixtureDeclared()
    ensures var all := Declared(Fixture, ["TestModule", "AnotherTestModule"]);
      |all.imports| == 1 && |all.providers| == 2 && |all.controllers| == 2 && |all.exports| == 1
  {
    assert ["TestModule", "AnotherTestModule"][1..] == ["AnotherTestModule"];
    assert ["AnotherTestModule"][1..] == [];
  }

  lemma FixtureRegistry()
    ensures |{Direct("TestModule"), Direct("AnotherTestModule")}| == 2
  {
  }

  /** Counts grown from the empty log are the counts themselves. */
  lemma CountsFromEmpty(r: Graph, m: nat, rl: nat, p: nat, c: nat, e: nat)
    requires LogGrows(EmptyGraph, r, m, rl, p, c, e)
    ensures Count(r.calls, IsModuleCall) == m && Count(r.calls, IsRelatedModuleCall) == rl
    ensures Count(r.calls, IsProviderCall) == p && Count(r.calls, IsControllerCall) == c && Count(r.calls, IsExportCall) == e
  {
  }

  // ---- reflectKeyMetadata ----

  /** `TestProvider` has no method metadata; `CompMethod.method` carries `@UseGuards(Guard)`. */
  const Decorated := Reflection(
    map["TestProvider" := ClassInfo(None, {}, []), "CompMethod" := ClassInfo(None, {"method"}, ["method"])],
    map[],
    map[("CompMethod", "method", "__guards__") := ["Guard"]],
    map[])

  lemma KeyMetadataFixture()
    ensures ReflectKeyMetadata(Decorated, "TestProvider", "key", "method") == None
    ensures ReflectKeyMetadata(Decorated, "CompMethod", GUARDS_METADATA, "method") == Some(["Guard"])
  {
    assert ("CompMethod", "method", "__guards__") in Decorated.methodMeta;
  }

  // ---- storeProvider into module "token" ----

  const Empty0 := ScanState(EmptyGraph, [])

  /** A class provider, or a custom provider of `'CUSTOM'`, goes to `addProvider` unchanged and leaves the apply map empty. */
  lemma StoreProviderFixture(keyGen: nat -> Token)
    ensures ProviderStored(Empty0, ClassProvider("P"), "token", keyGen)
      == ScanState(Graph(Empty(), [AddProviderCall(ClassProvider("P"), "token")]), [])
    ensures ProviderStored(Empty0, CustomProvider("CUSTOM", UseValue(Ref(1))), "token", keyGen)
      == ScanState(Graph(Empty(), [AddProviderCall(CustomProvider("CUSTOM", UseValue(Ref(1))), "token")]), [])
  {
  }

  /** A custom provider of `APP_INTERCEPTOR` is still registered, and adds one apply entry under the module token. */
  lemma StoreGlobalProviderFixture(keyGen: nat -> Token)
    ensures var r := ProviderStored(Empty0, CustomProvider(APP_INTERCEPTOR, UseValue(Ref(1))), "token", keyGen);
      && |r.applyMap| == 1
      && r.applyMap[0].moduleKey == "token"
      && r.graph.calls == [AddProviderCall(CustomProvider(keyGen(0), UseValue(Ref(1))), "token")]
  {
  }

  // ---- storeModule and storeRelatedModule ----

  lemma StoreModuleFixture()
    ensures ModuleStored(EmptyGraph, ForwardRef(Some("Forwarded"))).Success?
    ensures ModuleStored(EmptyGraph, ForwardRef(Some("Forwarded"))).value.calls == [AddModuleCall("Forwarded")]
    ensures RelatedModuleStored(EmptyGraph, Nil, "test") == Failure(InvalidModule)
    ensures RelatedModuleStored(EmptyGraph, ForwardRef(None), "test") == Failure(InvalidModule)
  {
  }

  // ---- applyApplicationProviders ----

  /** One `APP_GUARD` entry pointing at `providerToken` of `moduleToken`, whose instance is `Ref(7)`. */
  const ApplyGraph := Graph(
    OMap(["moduleToken"], map["moduleToken" := EmptyRecord.(providers :=
      OMap(["providerToken"], map["providerToken" := Wrapper("providerToken", ClassProvider("providerToken"), Ref(7))]))]),
    [])

  lemma ApplyFixture()
    ensures ApplyAll(ApplyGraph, [ApplyEntry("moduleToken", "providerToken", APP_GUARD)], NoGlobals)
      == ApplyOutcome(NoGlobals.(guards := [Ref(7)]), None)
    ensures ApplyAll(ApplyGraph, [ApplyEntry("otherModule", "providerToken", APP_GUARD)], NoGlobals)
      == ApplyOutcome(NoGlobals, Some(UndefinedModule("otherModule")))
  {
  }
}
