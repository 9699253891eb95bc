/**
 * The injector as the instance loader sees it. Its internals (dependency
 * resolution, circular references, unknown dependencies) are not part of
 * this model: each operation records an event on a ghost trace, and an
 * instance step resolves the wrapper it is given, once.
 */
module InjectorModel {
  import opened OrderedMaps
  import opened Descriptors
  import opened Container

  /** The three collections of a module the loader walks. */
  datatype Kind = Providers | Injectables | Routes

  function Collection(rec: ModuleRecord, k: Kind): OMap<Wrapper> {
    match k
    case Providers => rec.providers
    case Injectables => rec.injectables
    case Routes => rec.routes
  }

  /** `rec` with collection `k` replaced; the other collections stay. */
  function WithCollection(rec: ModuleRecord, k: Kind, c: OMap<Wrapper>): (r: ModuleRecord)
    ensures Collection(r, k) == c
    ensures forall k' :: k' != k ==> Collection(r, k') == Collection(rec, k')
    ensures r.imports == rec.imports && r.exports == rec.exports
  {
    match k
    case Providers => rec.(providers := c)
    case Injectables => rec.(injectables := c)
    case Routes => rec.(routes := c)
  }

  /**
   * What the loader observes: a prototype step or an instance step on a
   * wrapper of collection `kind` of `module`, and the module's
   * initialisation message.
   */
  datatype Event =
    | Proto(kind: Kind, owner: Token, token: Token)
    | Inst(kind: Kind, owner: Token, token: Token)
    | Log(owner: Token)

  /** What a module keeps while its wrappers are instantiated: its wrapper keys, imports and exports. */
  datatype Outline = Outline(
    providers: seq<Token>, providerSet: set<Token>,
    injectables: seq<Token>, injectableSet: set<Token>,
    routes: seq<Token>, routeSet: set<Token>,
    imports: seq<Token>, exports: set<Token>)

  function OutlineOf(rec: ModuleRecord): Outline {
    Outline(rec.providers.keys, rec.providers.vals.Keys,
            rec.injectables.keys, rec.injectables.vals.Keys,
            rec.routes.keys, rec.routes.vals.Keys,
            rec.imports, rec.exports)
  }

  /** The same modules, in the same order, each with the same outline. */
  ghost predicate SameShape(a: OMap<ModuleRecord>, b: OMap<ModuleRecord>) {
    && a.keys == b.keys
    && a.vals.Keys == b.vals.Keys
    && forall m :: m in a.vals ==> OutlineOf(a.vals[m]) == OutlineOf(b.vals[m])
  }

  /** The wrapper `t` of collection `k` of module `m` holds an instance. */
  ghost predicate Instantiated(mods: OMap<ModuleRecord>, k: Kind, m: Token, t: Token) {
    m in mods.vals && t in Collection(mods.vals[m], k).vals && Collection(mods.vals[m], k).vals[t].instance.Ref?
  }

  /** `b` has `a`'s shape, and every wrapper instantiated in `a` is instantiated in `b`. */
  ghost predicate Grows(a: OMap<ModuleRecord>, b: OMap<ModuleRecord>) {
    && SameShape(a, b)
    && forall k, m, t :: Instantiated(a, k, m, t) ==> Instantiated(b, k, m, t)
  }

  /** `rec` with wrapper `t` of collection `k` given the instance `Ref(handle)`. */
  function Resolved(rec: ModuleRecord, k: Kind, t: Token, handle: nat): (r: ModuleRecord)
    requires t in Collection(rec, k).vals
    ensures OutlineOf(r) == OutlineOf(rec)
    ensures Collection(r, k).vals[t].instance == Ref(handle)
    ensures forall k', t' :: (k' != k || t' != t) && t' in Collection(rec, k').vals ==>
              Collection(r, k').vals[t'] == Collection(rec, k').vals[t']
  {
    var c := Collection(rec, k);
    var c' := c.Put(t, c.vals[t].(instance := Ref(handle)));
    assert c'.keys == c.keys && c'.vals.Keys == c.vals.Keys;
    WithCollection(rec, k, c')
  }

  lemma ResolvedGrows(mods: OMap<ModuleRecord>, k: Kind, m: Token, t: Token, handle: nat)
    requires m in mods.vals && t in Collection(mods.vals[m], k).vals
    ensures Grows(mods, mods.Put(m, Resolved(mods.vals[m], k, t, handle)))
  {
    var r := mods.Put(m, Resolved(mods.vals[m], k, t, handle));
    assert r.keys == mods.keys && r.vals.Keys == mods.vals.Keys;
    forall k', m', t' | Instantiated(mods, k', m', t')
      ensures Instantiated(r, k', m', t')
    {
      if m' == m && (k' != k || t' != t) {
        assert Collection(r.vals[m], k').vals[t'] == Collection(mods.vals[m], k').vals[t'];
      }
    }
  }

  /**
   * An instance step on wrapper `t` of collection `k` of `m`: an unresolved
   * wrapper gets the instance `Ref(handle)`; a resolved one keeps its cached
   * instance. Nothing else changes.
   */
  function InstanceLoaded(mods: OMap<ModuleRecord>, k: Kind, m: Token, t: Token, handle: nat): (r: OMap<ModuleRecord>)
    ensures Grows(mods, r)
    ensures m in mods.vals && t in Collection(mods.vals[m], k).vals ==> Instantiated(r, k, m, t)
    ensures forall m' :: m' in mods.vals && m' != m ==> r.vals[m'] == mods.vals[m']
  {
    if m in mods.vals && t in Collection(mods.vals[m], k).vals && Collection(mods.vals[m], k).vals[t].instance == Undefined then
      var r := mods.Put(m, Resolved(mods.vals[m], k, t, handle));
      ResolvedGrows(mods, k, m, t, handle);
      r
    else mods
  }

  class Injector {
    ghost var trace: seq<Event>
    /** Names the next instance this injector creates. */
    var nextHandle: nat

    constructor ()
      ensures trace == [] && nextHandle == 0
    {
      trace, nextHandle := [], 0;
    }

    /** `loadPrototypeOfInstance(wrapper, collection)`, the collection being `kind` of `owner`. */
    method LoadPrototypeOfInstance(kind: Kind, owner: Token, token: Token)
      modifies this
      ensures trace == old(trace) + [Proto(kind, owner, token)]
      ensures nextHandle == old(nextHandle)
    {
      trace := trace + [Proto(kind, owner, token)];
    }

    method LoadInstance(container: NestContainer, kind: Kind, owner: Token, token: Token)
      modifies this, container
      ensures trace == old(trace) + [Inst(kind, owner, token)]
      ensures container.modules == InstanceLoaded(old(container.modules), kind, owner, token, old(nextHandle))
      ensures container.calls == old(container.calls)
    {
      container.modules := InstanceLoaded(container.modules, kind, owner, token, nextHandle);
      nextHandle := nextHandle + 1;
      trace := trace + [Inst(kind, owner, token)];
    }

    method LoadInstanceOfProvider(container: NestContainer, owner: Token, token: Token)
      modifies this, container
      ensures trace == old(trace) + [Inst(Providers, owner, token)]
      ensures container.modules == InstanceLoaded(old(container.modules), Providers, owner, token, old(nextHandle))
      ensures container.calls == old(container.calls)
    {
      LoadInstance(container, Providers, owner, token);
    }

    method LoadInstanceOfInjectable(container: NestContainer, owner: Token, token: Token)
      modifies this, container
      ensures trace == old(trace) + [Inst(Injectables, owner, token)]
      ensures container.modules == InstanceLoaded(old(container.modules), Injectables, owner, token, old(nextHandle))
      ensures container.calls == old(container.calls)
    {
      LoadInstance(container, Injectables, owner, token);
    }

    method LoadInstanceOfRoute(container: NestContainer, owner: Token, token: Token)
      modifies this, container
      ensures trace == old(trace) + [Inst(Routes, owner, token)]
      ensures container.modules == InstanceLoaded(old(container.modules), Routes, owner, token, old(nextHandle))
      ensures container.calls == old(container.calls)
    {
      LoadInstance(container, Routes, owner, token);
    }
  }
}
