/**
 * The dependency graph (`NestContainer`): module token -> module record, in
 * registration order. Each record holds the providers, injectables and
 * routes (controllers) of one module as token -> wrapper maps, its imported
 * modules and its exported tokens. A module's token is its class name.
 *
 * Every registration is a pure transition on `Graph`; the class applies
 * them and logs each call it receives, as the test's mock records them.
 */
module Container {
  import opened Wrappers
  import opened OrderedMaps
  import opened Descriptors

  /** One injectable unit: its token, its declaration and its instance. */
  datatype Wrapper = Wrapper(name: Token, metatype: Provider, instance: Instance)

  /** A fresh wrapper: a `useValue` provider starts resolved with its value, all others unresolved. */
  function NewWrapper(p: Provider): (w: Wrapper)
    ensures w.name == ProviderToken(p) && w.metatype == p
    ensures (p.CustomProvider? && p.recipe.UseValue?) ==> w.instance == p.recipe.value
    ensures !(p.CustomProvider? && p.recipe.UseValue?) ==> w.instance == Undefined
  {
    match p
    case CustomProvider(_, UseValue(v)) => Wrapper(ProviderToken(p), p, v)
    case _ => Wrapper(ProviderToken(p), p, Undefined)
  }

  datatype ModuleRecord = ModuleRecord(
    providers: OMap<Wrapper>,
    injectables: OMap<Wrapper>,
    routes: OMap<Wrapper>,
    imports: seq<Token>,
    exports: set<Token>)

  const EmptyRecord: ModuleRecord := ModuleRecord(Empty(), Empty(), Empty(), [], {})

  ghost predicate RecordValid(r: ModuleRecord) {
    r.providers.Valid() && r.injectables.Valid() && r.routes.Valid()
  }

  /** A call received by the container, with its arguments. */
  datatype Call =
    | AddModuleCall(metatype: Token)
    | AddRelatedModuleCall(related: Token, token: Token)
    | AddProviderCall(provider: Provider, token: Token)
    | AddInjectableCall(injectable: Token, token: Token)
    | AddControllerCall(controller: Token, token: Token)
    | AddExportedProviderCall(exported: Token, token: Token)

  predicate IsModuleCall(c: Call) { c.AddModuleCall? }
  predicate IsRelatedModuleCall(c: Call) { c.AddRelatedModuleCall? }
  predicate IsProviderCall(c: Call) { c.AddProviderCall? }
  predicate IsControllerCall(c: Call) { c.AddControllerCall? }
  predicate IsExportCall(c: Call) { c.AddExportedProviderCall? }

  /** How many of `calls` satisfy `p`. */
  function Count(calls: seq<Call>, p: Call -> bool): nat
    decreases |calls|
  {
    if calls == [] then 0 else Count(calls[..|calls| - 1], p) + (if p(calls[|calls| - 1]) then 1 else 0)
  }

  lemma CountSnoc(calls: seq<Call>, c: Call, p: Call -> bool)
    ensures Count(calls + [c], p) == Count(calls, p) + (if p(c) then 1 else 0)
  {
    assert (calls + [c])[..|calls|] == calls;
  }

  datatype Graph = Graph(modules: OMap<ModuleRecord>, calls: seq<Call>)

  /**
   * From `g` to `g'` the log gains exactly the given numbers of `addModule`,
   * `addRelatedModule`, `addProvider`, `addController` and
   * `addExportedProvider` calls; `addInjectable` calls are not counted.
   */
  ghost predicate LogGrows(g: Graph, g': Graph, modules: nat, related: nat, providers: nat, controllers: nat, exports: nat) {
    && Count(g'.calls, IsModuleCall) == Count(g.calls, IsModuleCall) + modules
    && Count(g'.calls, IsRelatedModuleCall) == Count(g.calls, IsRelatedModuleCall) + related
    && Count(g'.calls, IsProviderCall) == Count(g.calls, IsProviderCall) + providers
    && Count(g'.calls, IsControllerCall) == Count(g.calls, IsControllerCall) + controllers
    && Count(g'.calls, IsExportCall) == Count(g.calls, IsExportCall) + exports
  }

  /** One logged call counts once, for the method it went to. */
  lemma LogStep(g: Graph, g': Graph, c: Call)
    requires g'.calls == g.calls + [c]
    ensures LogGrows(g, g', if c.AddModuleCall? then 1 else 0, if c.AddRelatedModuleCall? then 1 else 0,
      if c.AddProviderCall? then 1 else 0, if c.AddControllerCall? then 1 else 0, if c.AddExportedProviderCall? then 1 else 0)
  {
    CountSnoc(g.calls, c, IsModuleCall);
    CountSnoc(g.calls, c, IsRelatedModuleCall);
    CountSnoc(g.calls, c, IsProviderCall);
    CountSnoc(g.calls, c, IsControllerCall);
    CountSnoc(g.calls, c, IsExportCall);
  }

  lemma LogGrowsTrans(g1: Graph, g2: Graph, g3: Graph, m1: nat, r1: nat, p1: nat, c1: nat, e1: nat, m2: nat, r2: nat, p2: nat, c2: nat, e2: nat)
    requires LogGrows(g1, g2, m1, r1, p1, c1, e1) && LogGrows(g2, g3, m2, r2, p2, c2, e2)
    ensures LogGrows(g1, g3, m1 + m2, r1 + r2, p1 + p2, c1 + c2, e1 + e2)
  {
  }

  const EmptyGraph: Graph := Graph(Empty(), [])

  /** Each module is registered once, and so is each wrapper within its collection. */
  ghost predicate GraphValid(g: Graph) {
    && g.modules.Valid()
    && forall m :: m in g.modules.vals ==> RecordValid(g.modules.vals[m])
  }

  lemma EmptyGraphValid()
    ensures GraphValid(EmptyGraph)
  {
  }

  /** The record of `token` replaced by `rec`; the set and order of modules stay as they are. */
  function Replace(g: Graph, token: Token, rec: ModuleRecord, call: Call): (r: Graph)
    requires token in g.modules.vals
    ensures r.modules.keys == g.modules.keys && r.modules.vals == g.modules.vals[token := rec]
    ensures r.calls == g.calls + [call]
  {
    Graph(g.modules.Put(token, rec), g.calls + [call])
  }

  /** `addModule(metatype)`: a class already registered is not registered again. */
  function ModuleAdded(g: Graph, metatype: Token): (r: Graph)
    ensures GraphValid(g) ==> GraphValid(r)
    ensures r.calls == g.calls + [AddModuleCall(metatype)]
    ensures metatype in r.modules.vals
    ensures metatype in g.modules.vals ==> r.modules == g.modules
    ensures metatype !in g.modules.vals ==>
      r.modules.keys == g.modules.keys + [metatype] && r.modules.vals == g.modules.vals[metatype := EmptyRecord]
  {
    if metatype in g.modules.vals then Graph(g.modules, g.calls + [AddModuleCall(metatype)])
    else Graph(g.modules.Put(metatype, EmptyRecord), g.calls + [AddModuleCall(metatype)])
  }

  /**
   * `addRelatedModule(related, token)`: records an import edge between two
   * registered modules, once; an unknown module on either side changes nothing.
   */
  function RelatedModuleAdded(g: Graph, related: Token, token: Token): (r: Graph)
    ensures GraphValid(g) ==> GraphValid(r)
    ensures r.calls == g.calls + [AddRelatedModuleCall(related, token)]
    ensures r.modules.keys == g.modules.keys && r.modules.vals.Keys == g.modules.vals.Keys
    ensures forall m :: m in g.modules.vals && m != token ==> r.modules.vals[m] == g.modules.vals[m]
    ensures token in g.modules.vals ==>
      var before, after := g.modules.vals[token], r.modules.vals[token];
      && after == before.(imports := after.imports)
      && (forall x :: x in after.imports <==> x in before.imports || (x == related && related in g.modules.vals))
  {
    var call := AddRelatedModuleCall(related, token);
    if token in g.modules.vals && related in g.modules.vals && related !in g.modules.vals[token].imports then
      var rec := g.modules.vals[token];
      Replace(g, token, rec.(imports := rec.imports + [related]), call)
    else Graph(g.modules, g.calls + [call])
  }

  /** Whether the container accepts a registration into `token`; an unknown module is an error. */
  predicate Knows(g: Graph, token: Token) {
    token in g.modules.vals
  }

  /** `addProvider(provider, token)`: the provider's wrapper, under its token, in its module. */
  function ProviderAdded(g: Graph, p: Provider, token: Token): (r: Graph)
    ensures GraphValid(g) ==> GraphValid(r)
    ensures r.calls == g.calls + [AddProviderCall(p, token)]
    ensures r.modules.keys == g.modules.keys && r.modules.vals.Keys == g.modules.vals.Keys
    ensures forall m :: m in g.modules.vals && m != token ==> r.modules.vals[m] == g.modules.vals[m]
    ensures token in g.modules.vals ==>
      var before, after := g.modules.vals[token], r.modules.vals[token];
      && after == before.(providers := after.providers)
      && after.providers == before.providers.Put(ProviderToken(p), NewWrapper(p))
  {
    var call := AddProviderCall(p, token);
    if token in g.modules.vals then
      var rec := g.modules.vals[token];
      Replace(g, token, rec.(providers := rec.providers.Put(ProviderToken(p), NewWrapper(p))), call)
    else Graph(g.modules, g.calls + [call])
  }

  /** `addInjectable(injectable, token)`: an enhancer class as an injectable of its module. */
  function InjectableAdded(g: Graph, injectable: Token, token: Token): (r: Graph)
    ensures GraphValid(g) ==> GraphValid(r)
    ensures r.calls == g.calls + [AddInjectableCall(injectable, token)]
    ensures r.modules.keys == g.modules.keys && r.modules.vals.Keys == g.modules.vals.Keys
    ensures forall m :: m in g.modules.vals && m != token ==> r.modules.vals[m] == g.modules.vals[m]
    ensures token in g.modules.vals ==>
      var before, after := g.modules.vals[token], r.modules.vals[token];
      && after == before.(injectables := after.injectables)
      && after.injectables == before.injectables.Put(injectable, NewWrapper(ClassProvider(injectable)))
  {
    var call := AddInjectableCall(injectable, token);
    if token in g.modules.vals then
      var rec := g.modules.vals[token];
      Replace(g, token, rec.(injectables := rec.injectables.Put(injectable, NewWrapper(ClassProvider(injectable)))), call)
    else Graph(g.modules, g.calls + [call])
  }

  /** `addController(controller, token)`: a controller as a route of its module. */
  function ControllerAdded(g: Graph, controller: Token, token: Token): (r: Graph)
    ensures GraphValid(g) ==> GraphValid(r)
    ensures r.calls == g.calls + [AddControllerCall(controller, token)]
    ensures r.modules.keys == g.modules.keys && r.modules.vals.Keys == g.modules.vals.Keys
    ensures forall m :: m in g.modules.vals && m != token ==> r.modules.vals[m] == g.modules.vals[m]
    ensures token in g.modules.vals ==>
      var before, after := g.modules.vals[token], r.modules.vals[token];
      && after == before.(routes := after.routes)
      && after.routes == before.routes.Put(controller, NewWrapper(ClassProvider(controller)))
  {
    var call := AddControllerCall(controller, token);
    if token in g.modules.vals then
      var rec := g.modules.vals[token];
      Replace(g, token, rec.(routes := rec.routes.Put(controller, NewWrapper(ClassProvider(controller)))), call)
    else Graph(g.modules, g.calls + [call])
  }

  /** `addExportedProvider(exported, token)`: marks one token exported by its module. */
  function ExportAdded(g: Graph, exported: Token, token: Token): (r: Graph)
    ensures GraphValid(g) ==> GraphValid(r)
    ensures r.calls == g.calls + [AddExportedProviderCall(exported, token)]
    ensures r.modules.keys == g.modules.keys && r.modules.vals.Keys == g.modules.vals.Keys
    ensures forall m :: m in g.modules.vals && m != token ==> r.modules.vals[m] == g.modules.vals[m]
    ensures token in g.modules.vals ==>
      var before, after := g.modules.vals[token], r.modules.vals[token];
      after == before.(exports := before.exports + {exported})
  {
    var call := AddExportedProviderCall(exported, token);
    if token in g.modules.vals then
      var rec := g.modules.vals[token];
      Replace(g, token, rec.(exports := rec.exports + {exported}), call)
    else Graph(g.modules, g.calls + [call])
  }

  class NestContainer {
    var modules: OMap<ModuleRecord>
    var calls: seq<Call>

    function State(): Graph
      reads this
    {
      Graph(modules, calls)
    }

    constructor ()
      ensures State() == EmptyGraph
    {
      modules, calls := Empty(), [];
    }

    method AddModule(metatype: Token)
      modifies this
      ensures State() == ModuleAdded(old(State()), metatype)
    {
      var g := ModuleAdded(State(), metatype);
      modules, calls := g.modules, g.calls;
    }

    method AddRelatedModule(related: Token, token: Token)
      modifies this
      ensures State() == RelatedModuleAdded(old(State()), related, token)
    {
      var g := RelatedModuleAdded(State(), related, token);
      modules, calls := g.modules, g.calls;
    }

    method AddProvider(provider: Provider, token: Token) returns (ok: bool)
      modifies this
      ensures ok == Knows(old(State()), token)
      ensures State() == ProviderAdded(old(State()), provider, token)
    {
      ok := Knows(State(), token);
      var g := ProviderAdded(State(), provider, token);
      modules, calls := g.modules, g.calls;
    }

    method AddInjectable(injectable: Token, token: Token) returns (ok: bool)
      modifies this
      ensures ok == Knows(old(State()), token)
      ensures State() == InjectableAdded(old(State()), injectable, token)
    {
      ok := Knows(State(), token);
      var g := InjectableAdded(State(), injectable, token);
      modules, calls := g.modules, g.calls;
    }

    method AddController(controller: Token, token: Token) returns (ok: bool)
      modifies this
      ensures ok == Knows(old(State()), token)
      ensures State() == ControllerAdded(old(State()), controller, token)
    {
      ok := Knows(State(), token);
      var g := ControllerAdded(State(), controller, token);
      modules, calls := g.modules, g.calls;
    }

    method AddExportedProvider(exported: Token, token: Token) returns (ok: bool)
      modifies this
      ensures ok == Knows(old(State()), token)
      ensures State() == ExportAdded(old(State()), exported, token)
    {
      ok := Knows(State(), token);
      var g := ExportAdded(State(), exported, token);
      modules, calls := g.modules, g.calls;
    }
  }
}
