/**
 * The instance loader: a prototype pass over every module, followed by an
 * instance pass that resolves every wrapper and logs each module's
 * initialisation. `LoaderTrace` is the order of injector steps the loader
 * produces; the class below is proved to produce exactly that trace.
 */
module Loader {
  import opened OrderedMaps
  import opened Descriptors
  import opened Container
  import opened InjectorModel

  /** Every module, and every collection of every module, is a valid ordered map. */
  ghost predicate ModulesValid(mods: OMap<ModuleRecord>) {
    && mods.Valid()
    && forall m :: m in mods.vals ==> RecordValid(mods.vals[m])
  }

  lemma ShapeKeepsValid(a: OMap<ModuleRecord>, b: OMap<ModuleRecord>)
    requires SameShape(a, b) && ModulesValid(a)
    ensures ModulesValid(b)
  {
    forall m | m in b.vals
      ensures RecordValid(b.vals[m])
    {
      assert Collection(a.vals[m], Providers).keys == b.vals[m].providers.keys;
      assert Collection(a.vals[m], Injectables).keys == b.vals[m].injectables.keys;
      assert Collection(a.vals[m], Routes).keys == b.vals[m].routes.keys;
    }
  }

  /** Prototype steps on the wrappers `ts` of collection `k` of `m`, in order. */
  function Protos(k: Kind, m: Token, ts: seq<Token>): seq<Event> {
    seq(|ts|, i requires 0 <= i < |ts| => Proto(k, m, ts[i]))
  }

  /** Instance steps on the wrappers `ts` of collection `k` of `m`, in order. */
  function Insts(k: Kind, m: Token, ts: seq<Token>): seq<Event> {
    seq(|ts|, i requires 0 <= i < |ts| => Inst(k, m, ts[i]))
  }

  function Keys(rec: ModuleRecord, k: Kind): seq<Token> {
    Collection(rec, k).keys
  }

  /** A module's prototype steps: providers, then injectables, then routes. */
  function ModulePrototypes(m: Token, rec: ModuleRecord): seq<Event> {
    Protos(Providers, m, Keys(rec, Providers))
      + Protos(Injectables, m, Keys(rec, Injectables))
      + Protos(Routes, m, Keys(rec, Routes))
  }

  /** A module's instance steps in the same order, then its initialisation message. */
  function ModuleInstances(m: Token, rec: ModuleRecord): seq<Event> {
    Insts(Providers, m, Keys(rec, Providers))
      + Insts(Injectables, m, Keys(rec, Injectables))
      + Insts(Routes, m, Keys(rec, Routes))
      + [Log(m)]
  }

  /** The module registered under `m`; every listed key is registered in a valid map. */
  function RecordOf(mods: OMap<ModuleRecord>, m: Token): ModuleRecord {
    if m in mods.vals then mods.vals[m] else EmptyRecord
  }

  function PrototypePass(mods: OMap<ModuleRecord>, ms: seq<Token>): seq<Event>
    decreases |ms|
  {
    if ms == [] then [] else ModulePrototypes(ms[0], RecordOf(mods, ms[0])) + PrototypePass(mods, ms[1..])
  }

  function InstancePass(mods: OMap<ModuleRecord>, ms: seq<Token>): seq<Event>
    decreases |ms|
  {
    if ms == [] then [] else ModuleInstances(ms[0], RecordOf(mods, ms[0])) + InstancePass(mods, ms[1..])
  }

  /** Every step of `createInstancesOfDependencies`, in order, over the modules it starts from. */
  function LoaderTrace(mods: OMap<ModuleRecord>): seq<Event> {
    PrototypePass(mods, mods.keys) + InstancePass(mods, mods.keys)
  }

  /** Every wrapper of every module holds an instance. */
  ghost predicate AllInstantiated(mods: OMap<ModuleRecord>) {
    forall k, m, t :: m in mods.vals && t in Collection(mods.vals[m], k).vals ==> Instantiated(mods, k, m, t)
  }

  lemma OutlineKeepsValid(a: ModuleRecord, b: ModuleRecord)
    requires OutlineOf(a) == OutlineOf(b) && RecordValid(a)
    ensures RecordValid(b)
  {
  }

  lemma GrowsTrans(a: OMap<ModuleRecord>, b: OMap<ModuleRecord>, c: OMap<ModuleRecord>)
    requires Grows(a, b) && Grows(b, c)
    ensures Grows(a, c)
  {
  }

  lemma InstantiatedModule(m0: OMap<ModuleRecord>, m1: OMap<ModuleRecord>, m2: OMap<ModuleRecord>, m3: OMap<ModuleRecord>, m: Token)
    requires m in m0.vals
    requires Grows(m0, m1) && Grows(m1, m2) && Grows(m2, m3)
    requires forall t :: t in Collection(m0.vals[m], Providers).vals ==> Instantiated(m1, Providers, m, t)
    requires forall t :: t in Collection(m1.vals[m], Injectables).vals ==> Instantiated(m2, Injectables, m, t)
    requires forall t :: t in Collection(m2.vals[m], Routes).vals ==> Instantiated(m3, Routes, m, t)
    ensures forall k, t :: t in Collection(m0.vals[m], k).vals ==> Instantiated(m3, k, m, t)
  {
    forall k, t | t in Collection(m0.vals[m], k).vals
      ensures Instantiated(m3, k, m, t)
    {
      match k
      case Providers =>
      case Injectables =>
      case Routes =>
    }
  }

  lemma ModuleTrace(r0: ModuleRecord, r1: ModuleRecord, r2: ModuleRecord, m: Token, tr0: seq<Event>, tr1: seq<Event>, tr2: seq<Event>, tr3: seq<Event>)
    requires OutlineOf(r1) == OutlineOf(r0) && OutlineOf(r2) == OutlineOf(r0)
    requires tr1 == tr0 + Insts(Providers, m, Keys(r0, Providers))
    requires tr2 == tr1 + Insts(Injectables, m, Keys(r1, Injectables))
    requires tr3 == tr2 + Insts(Routes, m, Keys(r2, Routes))
    ensures tr3 + [Log(m)] == tr0 + ModuleInstances(m, r0)
  {
  }

  lemma InstancePassStep(mods: OMap<ModuleRecord>, ms: seq<Token>, i: nat, rec: ModuleRecord, tr0: seq<Event>, tr: seq<Event>, tr': seq<Event>)
    requires i < |ms|
    requires OutlineOf(rec) == OutlineOf(RecordOf(mods, ms[i]))
    requires tr0 + InstancePass(mods, ms) == tr + InstancePass(mods, ms[i..])
    requires tr' == tr + ModuleInstances(ms[i], rec)
    ensures tr0 + InstancePass(mods, ms) == tr' + InstancePass(mods, ms[i + 1..])
  {
    assert ms[i..][1..] == ms[i + 1..];
    var here := ModuleInstances(ms[i], RecordOf(mods, ms[i]));
    assert InstancePass(mods, ms[i..]) == here + InstancePass(mods, ms[i + 1..]);
    OutlineSameInstances(ms[i], rec, RecordOf(mods, ms[i]));
    calc {
      tr' + InstancePass(mods, ms[i + 1..]);
      tr + here + InstancePass(mods, ms[i + 1..]);
      tr + (here + InstancePass(mods, ms[i + 1..]));
    }
  }

  lemma PrototypePassStep(mods: OMap<ModuleRecord>, ms: seq<Token>, i: nat, tr0: seq<Event>, tr: seq<Event>, tr': seq<Event>)
    requires i < |ms|
    requires tr0 + PrototypePass(mods, ms) == tr + PrototypePass(mods, ms[i..])
    requires tr' == tr + ModulePrototypes(ms[i], RecordOf(mods, ms[i]))
    ensures tr0 + PrototypePass(mods, ms) == tr' + PrototypePass(mods, ms[i + 1..])
  {
    assert ms[i..][1..] == ms[i + 1..];
    var here := ModulePrototypes(ms[i], RecordOf(mods, ms[i]));
    assert PrototypePass(mods, ms[i..]) == here + PrototypePass(mods, ms[i + 1..]);
    calc {
      tr' + PrototypePass(mods, ms[i + 1..]);
      tr + here + PrototypePass(mods, ms[i + 1..]);
      tr + (here + PrototypePass(mods, ms[i + 1..]));
    }
  }

  lemma OutlineSameInstances(m: Token, a: ModuleRecord, b: ModuleRecord)
    requires OutlineOf(a) == OutlineOf(b)
    ensures ModuleInstances(m, a) == ModuleInstances(m, b)
  {
    assert Keys(a, Providers) == Keys(b, Providers);
    assert Keys(a, Injectables) == Keys(b, Injectables);
    assert Keys(a, Routes) == Keys(b, Routes);
  }

  lemma InstantiatedStep(mods: OMap<ModuleRecord>, before: OMap<ModuleRecord>, after: OMap<ModuleRecord>, ms: seq<Token>, i: nat)
    requires i < |ms| && forall m :: m in ms ==> m in mods.vals
    requires Grows(mods, before) && Grows(before, after)
    requires forall j, k, t :: 0 <= j < i && t in Collection(mods.vals[ms[j]], k).vals ==> Instantiated(before, k, ms[j], t)
    requires forall k, t :: t in Collection(before.vals[ms[i]], k).vals ==> Instantiated(after, k, ms[i], t)
    ensures forall j, k, t :: 0 <= j < i + 1 && t in Collection(mods.vals[ms[j]], k).vals ==> Instantiated(after, k, ms[j], t)
  {
    forall j, k, t | 0 <= j < i + 1 && t in Collection(mods.vals[ms[j]], k).vals
      ensures Instantiated(after, k, ms[j], t)
    {
      if j == i {
        assert OutlineOf(mods.vals[ms[i]]) == OutlineOf(before.vals[ms[i]]);
        match k
        case Providers =>
        case Injectables =>
        case Routes =>
      }
    }
  }

  /** Every key of a valid collection instantiated, in key order, means every wrapper of it is. */
  lemma KeysInstantiated(mods: OMap<ModuleRecord>, k: Kind, m: Token, rec: ModuleRecord)
    requires RecordValid(rec)
    requires forall j :: 0 <= j < |Keys(rec, k)| ==> Instantiated(mods, k, m, Keys(rec, k)[j])
    ensures forall t :: t in Collection(rec, k).vals ==> Instantiated(mods, k, m, t)
  {
    var c := Collection(rec, k);
    assert c.Valid() by {
      match k
      case Providers =>
      case Injectables =>
      case Routes =>
    }
    forall t | t in c.vals
      ensures Instantiated(mods, k, m, t)
    {
      var j :| 0 <= j < |c.keys| && c.keys[j] == t;
      assert Keys(rec, k)[j] == t;
    }
  }

  /** Every module of `mods`, in key order, instantiated in `after`, means all of `after` is. */
  lemma EveryModuleInstantiated(mods: OMap<ModuleRecord>, after: OMap<ModuleRecord>)
    requires mods.Valid() && SameShape(mods, after)
    requires forall j, k, t :: 0 <= j < |mods.keys| && t in Collection(mods.vals[mods.keys[j]], k).vals ==> Instantiated(after, k, mods.keys[j], t)
    ensures AllInstantiated(after)
  {
    forall k, m, t | m in after.vals && t in Collection(after.vals[m], k).vals
      ensures Instantiated(after, k, m, t)
    {
      var j :| 0 <= j < |mods.keys| && mods.keys[j] == m;
      assert OutlineOf(mods.vals[m]) == OutlineOf(after.vals[m]);
      match k
      case Providers =>
      case Injectables =>
      case Routes =>
    }
  }

  /** Two passes run one after the other leave their steps, in order, after what was already traced. */
  lemma TraceJoin(tr0: seq<Event>, p: seq<Event>, q: seq<Event>, tr1: seq<Event>, tr: seq<Event>)
    requires tr1 == tr0 + p && tr == tr1 + q
    ensures tr == tr0 + (p + q)
  {
  }

  /** One more wrapper of collection `k` of `m` loaded: the graph still grows, and the first `i + 1` keys are instantiated. */
  lemma LoadStep(m0: OMap<ModuleRecord>, before: OMap<ModuleRecord>, after: OMap<ModuleRecord>, k: Kind, m: Token, ws: seq<Token>, i: nat, handle: nat)
    requires m in m0.vals && RecordValid(m0.vals[m]) && ws == Keys(m0.vals[m], k) && i < |ws|
    requires Grows(m0, before)
    requires forall j :: 0 <= j < i ==> Instantiated(before, k, m, ws[j])
    requires after == InstanceLoaded(before, k, m, ws[i], handle)
    ensures Grows(m0, after)
    ensures forall j :: 0 <= j < i + 1 ==> Instantiated(after, k, m, ws[j])
  {
    assert Grows(before, after);
    GrowsTrans(m0, before, after);
    KeyListed(m0.vals[m], k, i);
    OutlineCollection(m0.vals[m], before.vals[m], k);
    assert Instantiated(after, k, m, ws[i]);
    PrefixGrows(before, after, k, m, ws, i);
  }

  /** Growth keeps the first `i` keys instantiated; with key `i` instantiated too, the first `i + 1` are. */
  lemma PrefixGrows(before: OMap<ModuleRecord>, after: OMap<ModuleRecord>, k: Kind, m: Token, ws: seq<Token>, i: nat)
    requires Grows(before, after) && i < |ws|
    requires forall j :: 0 <= j < i ==> Instantiated(before, k, m, ws[j])
    requires Instantiated(after, k, m, ws[i])
    ensures forall j :: 0 <= j < i + 1 ==> Instantiated(after, k, m, ws[j])
  {
    forall j | 0 <= j < i + 1
      ensures Instantiated(after, k, m, ws[j])
    {
      if j < i {
        assert Instantiated(before, k, m, ws[j]);
      }
    }
  }

  /** The `i`-th key of a valid collection is one of its wrappers. */
  lemma KeyListed(rec: ModuleRecord, k: Kind, i: nat)
    requires RecordValid(rec) && i < |Keys(rec, k)|
    ensures Keys(rec, k)[i] in Collection(rec, k).vals
  {
    match k
    case Providers =>
    case Injectables =>
    case Routes =>
  }

  /** Records with the same outline have the same wrappers in each collection. */
  lemma OutlineCollection(a: ModuleRecord, b: ModuleRecord, k: Kind)
    requires OutlineOf(a) == OutlineOf(b)
    ensures Collection(a, k).vals.Keys == Collection(b, k).vals.Keys
  {
    match k
    case Providers =>
    case Injectables =>
    case Routes =>
  }

  /** A trace that has seen the prototype steps of `ts[..i]`, extended by the step on `ts[i]`. */
  lemma ProtosSnoc(k: Kind, m: Token, ts: seq<Token>, i: nat, tr0: seq<Event>, tr: seq<Event>)
    requires i < |ts| && tr == tr0 + Protos(k, m, ts[..i])
    ensures tr + [Proto(k, m, ts[i])] == tr0 + Protos(k, m, ts[..i + 1])
  {
    assert Protos(k, m, ts[..i + 1]) == Protos(k, m, ts[..i]) + [Proto(k, m, ts[i])];
  }

  /** A trace that has seen the instance steps of `ts[..i]`, extended by the step on `ts[i]`. */
  lemma InstsSnoc(k: Kind, m: Token, ts: seq<Token>, i: nat, tr0: seq<Event>, tr: seq<Event>)
    requires i < |ts| && tr == tr0 + Insts(k, m, ts[..i])
    ensures tr + [Inst(k, m, ts[i])] == tr0 + Insts(k, m, ts[..i + 1])
  {
    assert Insts(k, m, ts[..i + 1]) == Insts(k, m, ts[..i]) + [Inst(k, m, ts[i])];
  }

  class InstanceLoader {
    const container: NestContainer
    const injector: Injector

    constructor (container: NestContainer)
      ensures this.container == container
      ensures fresh(injector) && injector.trace == [] && injector.nextHandle == 0
    {
      this.container := container;
      injector := new Injector();
    }

    /**
     * `createInstancesOfDependencies()`: the injector sees exactly
     * `LoaderTrace` of the modules as they were, every wrapper ends up with
     * an instance, and the module graph keeps its shape.
     */
    method CreateInstancesOfDependencies()
      requires ModulesValid(container.modules)
      modifies container, injector
      ensures injector.trace == old(injector.trace) + LoaderTrace(old(container.modules))
      ensures Grows(old(container.modules), container.modules)
      ensures AllInstantiated(container.modules)
      ensures container.calls == old(container.calls)
    {
      var modules := container.modules;
      ghost var tr0 := injector.trace;
      CreatePrototypes(modules);
      ghost var tr1 := injector.trace;
      CreateInstances(modules);
      TraceJoin(tr0, PrototypePass(modules, modules.keys), InstancePass(modules, modules.keys), tr1, injector.trace);
    }

    method CreatePrototypes(modules: OMap<ModuleRecord>)
      requires modules == container.modules && modules.Valid()
      modifies injector
      ensures injector.trace == old(injector.trace) + PrototypePass(modules, modules.keys)
      ensures injector.nextHandle == old(injector.nextHandle)
    {
      var ms := modules.keys;
      for i := 0 to |ms|
        invariant old(injector.trace) + PrototypePass(modules, ms) == injector.trace + PrototypePass(modules, ms[i..])
        invariant injector.nextHandle == old(injector.nextHandle)
      {
        ghost var tr := injector.trace;
        CreateModulePrototypes(ms[i]);
        PrototypePassStep(modules, ms, i, old(injector.trace), tr, injector.trace);
      }
      assert ms[|ms|..] == [];
    }

    /** The callback `createPrototypes` runs for one module: providers, injectables, routes. */
    method CreateModulePrototypes(m: Token)
      requires m in container.modules.vals
      modifies injector
      ensures injector.trace == old(injector.trace) + ModulePrototypes(m, container.modules.vals[m])
      ensures injector.nextHandle == old(injector.nextHandle)
    {
      CreatePrototypesOfProviders(m);
      CreatePrototypesOfInjectables(m);
      CreatePrototypesOfRoutes(m);
    }

    method CreateInstances(modules: OMap<ModuleRecord>)
      requires modules == container.modules && ModulesValid(modules)
      modifies container, injector
      ensures injector.trace == old(injector.trace) + InstancePass(modules, modules.keys)
      ensures Grows(modules, container.modules)
      ensures AllInstantiated(container.modules)
      ensures container.calls == old(container.calls)
    {
      var ms := modules.keys;
      for i := 0 to |ms|
        invariant old(injector.trace) + InstancePass(modules, ms) == injector.trace + InstancePass(modules, ms[i..])
        invariant Grows(modules, container.modules)
        invariant container.calls == old(container.calls)
        invariant forall j, k, t :: 0 <= j < i && t in Collection(modules.vals[ms[j]], k).vals ==> Instantiated(container.modules, k, ms[j], t)
      {
        ghost var before, tr := container.modules, injector.trace;
        ShapeKeepsValid(modules, before);
        CreateModuleInstances(ms[i]);
        GrowsTrans(modules, before, container.modules);
        InstancePassStep(modules, ms, i, before.vals[ms[i]], old(injector.trace), tr, injector.trace);
        InstantiatedStep(modules, before, container.modules, ms, i);
      }
      assert ms[|ms|..] == [];
      EveryModuleInstantiated(modules, container.modules);
    }

    /** The callback `createInstances` runs for one module: its three collections, then its log line. */
    method CreateModuleInstances(m: Token)
      requires m in container.modules.vals && RecordValid(container.modules.vals[m])
      modifies container, injector
      ensures injector.trace == old(injector.trace) + ModuleInstances(m, old(container.modules).vals[m])
      ensures Grows(old(container.modules), container.modules)
      ensures forall k, t :: t in old(Collection(container.modules.vals[m], k).vals) ==> Instantiated(container.modules, k, m, t)
      ensures container.calls == old(container.calls)
    {
      ghost var m0 := container.modules;
      ghost var tr0 := injector.trace;
      CreateInstancesOfProviders(m);
      ghost var m1 := container.modules;
      ghost var tr1 := injector.trace;
      OutlineKeepsValid(m0.vals[m], m1.vals[m]);
      CreateInstancesOfInjectables(m);
      ghost var m2 := container.modules;
      ghost var tr2 := injector.trace;
      GrowsTrans(m0, m1, m2);
      OutlineKeepsValid(m0.vals[m], m2.vals[m]);
      CreateInstancesOfRoutes(m);
      ghost var tr3 := injector.trace;
      GrowsTrans(m0, m2, container.modules);
      GrowsTrans(m1, m2, container.modules);
      // the logger records the module's initialisation on the same trace
      injector.trace := injector.trace + [Log(m)];
      ModuleTrace(m0.vals[m], m1.vals[m], m2.vals[m], m, tr0, tr1, tr2, tr3);
      InstantiatedModule(m0, m1, m2, container.modules, m);
    }

    method CreatePrototypesOfProviders(m: Token)
      requires m in container.modules.vals
      modifies injector
      ensures injector.trace == old(injector.trace) + Protos(Providers, m, Keys(container.modules.vals[m], Providers))
      ensures injector.nextHandle == old(injector.nextHandle)
    {
      CreatePrototypesOf(m, Providers);
    }

    method CreatePrototypesOfInjectables(m: Token)
      requires m in container.modules.vals
      modifies injector
      ensures injector.trace == old(injector.trace) + Protos(Injectables, m, Keys(container.modules.vals[m], Injectables))
      ensures injector.nextHandle == old(injector.nextHandle)
    {
      CreatePrototypesOf(m, Injectables);
    }

    method CreatePrototypesOfRoutes(m: Token)
      requires m in container.modules.vals
      modifies injector
      ensures injector.trace == old(injector.trace) + Protos(Routes, m, Keys(container.modules.vals[m], Routes))
      ensures injector.nextHandle == old(injector.nextHandle)
    {
      CreatePrototypesOf(m, Routes);
    }

    /** One prototype step per wrapper of collection `k` of `m`, in the collection's order. */
    method CreatePrototypesOf(m: Token, k: Kind)
      requires m in container.modules.vals
      modifies injector
      ensures injector.trace == old(injector.trace) + Protos(k, m, Keys(container.modules.vals[m], k))
      ensures injector.nextHandle == old(injector.nextHandle)
    {
      var ws := Keys(container.modules.vals[m], k);
      for i := 0 to |ws|
        invariant injector.trace == old(injector.trace) + Protos(k, m, ws[..i])
        invariant injector.nextHandle == old(injector.nextHandle)
      {
        ProtosSnoc(k, m, ws, i, old(injector.trace), injector.trace);
        injector.LoadPrototypeOfInstance(k, m, ws[i]);
      }
      assert ws[..|ws|] == ws;
    }

    method CreateInstancesOfProviders(m: Token)
      requires m in container.modules.vals && RecordValid(container.modules.vals[m])
      modifies container, injector
      ensures injector.trace == old(injector.trace) + Insts(Providers, m, Keys(old(container.modules).vals[m], Providers))
      ensures Grows(old(container.modules), container.modules)
      ensures forall t :: t in Collection(old(container.modules).vals[m], Providers).vals ==> Instantiated(container.modules, Providers, m, t)
      ensures container.calls == old(container.calls)
    {
      var ws := Keys(container.modules.vals[m], Providers);
      for i := 0 to |ws|
        invariant injector.trace == old(injector.trace) + Insts(Providers, m, ws[..i])
        invariant Grows(old(container.modules), container.modules)
        invariant container.calls == old(container.calls)
        invariant forall j :: 0 <= j < i ==> Instantiated(container.modules, Providers, m, ws[j])
      {
        ghost var before, h := container.modules, injector.nextHandle;
        InstsSnoc(Providers, m, ws, i, old(injector.trace), injector.trace);
        injector.LoadInstanceOfProvider(container, m, ws[i]);
        LoadStep(old(container.modules), before, container.modules, Providers, m, ws, i, h);
      }
      assert ws[..|ws|] == ws;
      KeysInstantiated(container.modules, Providers, m, old(container.modules).vals[m]);
    }

    method CreateInstancesOfInjectables(m: Token)
      requires m in container.modules.vals && RecordValid(container.modules.vals[m])
      modifies container, injector
      ensures injector.trace == old(injector.trace) + Insts(Injectables, m, Keys(old(container.modules).vals[m], Injectables))
      ensures Grows(old(container.modules), container.modules)
      ensures forall t :: t in Collection(old(container.modules).vals[m], Injectables).vals ==> Instantiated(container.modules, Injectables, m, t)
      ensures container.calls == old(container.calls)
    {
      var ws := Keys(container.modules.vals[m], Injectables);
      for i := 0 to |ws|
        invariant injector.trace == old(injector.trace) + Insts(Injectables, m, ws[..i])
        invariant Grows(old(container.modules), container.modules)
        invariant container.calls == old(container.calls)
        invariant forall j :: 0 <= j < i ==> Instantiated(container.modules, Injectables, m, ws[j])
      {
        ghost var before, h := container.modules, injector.nextHandle;
        InstsSnoc(Injectables, m, ws, i, old(injector.trace), injector.trace);
        injector.LoadInstanceOfInjectable(container, m, ws[i]);
        LoadStep(old(container.modules), before, container.modules, Injectables, m, ws, i, h);
      }
      assert ws[..|ws|] == ws;
      KeysInstantiated(container.modules, Injectables, m, old(container.modules).vals[m]);
    }

    method CreateInstancesOfRoutes(m: Token)
      requires m in container.modules.vals && RecordValid(container.modules.vals[m])
      modifies container, injector
      ensures injector.trace == old(injector.trace) + Insts(Routes, m, Keys(old(container.modules).vals[m], Routes))
      ensures Grows(old(container.modules), container.modules)
      ensures forall t :: t in Collection(old(container.modules).vals[m], Routes).vals ==> Instantiated(container.modules, Routes, m, t)
      ensures container.calls == old(container.calls)
    {
      var ws := Keys(container.modules.vals[m], Routes);
      for i := 0 to |ws|
        invariant injector.trace == old(injector.trace) + Insts(Routes, m, ws[..i])
        invariant Grows(old(container.modules), container.modules)
        invariant container.calls == old(container.calls)
        invariant forall j :: 0 <= j < i ==> Instantiated(container.modules, Routes, m, ws[j])
      {
        ghost var before, h := container.modules, injector.nextHandle;
        InstsSnoc(Routes, m, ws, i, old(injector.trace), injector.trace);
        injector.LoadInstanceOfRoute(container, m, ws[i]);
        LoadStep(old(container.modules), before, container.modules, Routes, m, ws, i, h);
      }
      assert ws[..|ws|] == ws;
      KeysInstantiated(container.modules, Routes, m, old(container.modules).vals[m]);
    }
  }
}
