/**
 * What the per-module pass of a scan registers, for every input: the
 * enhancers `reflectDynamicMetadata` adds as injectables, the import edges
 * of `reflectRelatedModules`, the providers of `reflectProviders` (under
 * their own token or a fresh key, with one apply entry per global
 * provider), the routes of `reflectControllers`, and how many calls of each
 * kind the container receives; then the same for a whole scan.
 */
module Registration {
  import opened Wrappers
  import opened OrderedMaps
  import opened Descriptors
  import opened Metadata
  import opened Container
  import opened ScannerSpec
  import opened ScannerProperties

  lemma Assoc<T>(a: seq<T>, b: seq<T>, c: seq<T>)
    ensures (a + b) + c == a + (b + c)
  {
  }

  /** Every module but `token` keeps its record; which modules exist, and their order, stay as they are. */
  ghost predicate OthersKept(g: Graph, g': Graph, token: Token) {
    && SameModules(g, g')
    && forall m :: m in g.modules.vals && m != token ==> g'.modules.vals[m] == g.modules.vals[m]
  }

  lemma OthersKeptTrans(a: Graph, b: Graph, c: Graph, token: Token)
    requires OthersKept(a, b, token) && OthersKept(b, c, token)
    ensures OthersKept(a, c, token)
  {
  }

  // ---- classes registered into one collection ----

  /**
   * From `before` to `after`, each class of `xs` is registered with a fresh
   * wrapper of its own, every other entry is kept, and the keys already
   * there keep their order.
   */
  ghost predicate ClassesAdded(before: OMap<Wrapper>, after: OMap<Wrapper>, xs: seq<Token>) {
    && (forall k :: k in after.vals <==> k in before.vals || k in xs)
    && (forall k :: k in xs ==> after.vals[k] == NewWrapper(ClassProvider(k)))
    && (forall k :: k in before.vals && k !in xs ==> after.vals[k] == before.vals[k])
    && before.keys <= after.keys
  }

  lemma ClassesAddedNone(m: OMap<Wrapper>)
    ensures ClassesAdded(m, m, [])
  {
  }

  /** Registering `xs[0]` and then the rest of `xs` registers all of `xs`. */
  lemma ClassesAddedCons(before: OMap<Wrapper>, mid: OMap<Wrapper>, after: OMap<Wrapper>, xs: seq<Token>)
    requires xs != [] && mid == before.Put(xs[0], NewWrapper(ClassProvider(xs[0])))
    requires ClassesAdded(mid, after, xs[1..])
    ensures ClassesAdded(before, after, xs)
  {
    assert forall k :: k in xs <==> k == xs[0] || k in xs[1..];
  }

  lemma ClassesAddedJoin(a: OMap<Wrapper>, b: OMap<Wrapper>, c: OMap<Wrapper>, xs: seq<Token>, ys: seq<Token>)
    requires ClassesAdded(a, b, xs) && ClassesAdded(b, c, ys)
    ensures ClassesAdded(a, c, xs + ys)
  {
    assert forall k :: k in xs + ys <==> k in xs || k in ys;
  }

  // ---- storeInjectable and reflectDynamicMetadata ----

  /** The `addInjectable` calls for `xs` into `token`, one per class, in order. */
  function InjectableCalls(xs: seq<Token>, token: Token): (cs: seq<Call>)
    decreases |xs|
    ensures |cs| == |xs| && forall i :: 0 <= i < |xs| ==> cs[i] == AddInjectableCall(xs[i], token)
  {
    if xs == [] then []
    else
      var rest := InjectableCalls(xs[1..], token);
      assert forall i :: 1 <= i < |xs| ==> xs[1..][i - 1] == xs[i];
      [AddInjectableCall(xs[0], token)] + rest
  }

  /**
   * From `g` to `r`, `xs` are registered as injectables of `token`: one
   * `addInjectable` call each, in order, and, when the module is
   * registered, each class in its injectables and nothing else changed.
   */
  ghost predicate InjectablesRegistered(g: Graph, r: Graph, xs: seq<Token>, token: Token) {
    && r.calls == g.calls + InjectableCalls(xs, token)
    && OthersKept(g, r, token)
    && (token in g.modules.vals ==>
         var before, after := g.modules.vals[token], r.modules.vals[token];
         after == before.(injectables := after.injectables) && ClassesAdded(before.injectables, after.injectables, xs))
    && (token !in g.modules.vals ==> r.modules == g.modules)
  }

  /** `storeInjectable` for each class of `xs` registers exactly them, and no call but `addInjectable`. */
  lemma {:induction false} InjectablesRegister(g: Graph, xs: seq<Token>, token: Token)
    ensures var r := InjectablesStored(g, xs, token);
      InjectablesRegistered(g, r, xs, token) && LogGrows(g, r, 0, 0, 0, 0, 0)
    decreases |xs|
  {
    if xs == [] {
      assert g.calls + InjectableCalls(xs, token) == g.calls;
      if token in g.modules.vals {
        ClassesAddedNone(g.modules.vals[token].injectables);
      }
    } else {
      var g1 := InjectableAdded(g, xs[0], token);
      InjectablesRegister(g1, xs[1..], token);
      InjectablesStep(g, g1, InjectablesStored(g1, xs[1..], token), xs, token);
    }
  }

  lemma InjectablesStep(g: Graph, g1: Graph, r: Graph, xs: seq<Token>, token: Token)
    requires xs != [] && g1 == InjectableAdded(g, xs[0], token)
    requires InjectablesRegistered(g1, r, xs[1..], token) && LogGrows(g1, r, 0, 0, 0, 0, 0)
    ensures InjectablesRegistered(g, r, xs, token) && LogGrows(g, r, 0, 0, 0, 0, 0)
  {
    var c := AddInjectableCall(xs[0], token);
    LogStep(g, g1, c);
    Assoc(g.calls, [c], InjectableCalls(xs[1..], token));
    assert OthersKept(g, g1, token);
    OthersKeptTrans(g, g1, r, token);
    if token in g.modules.vals {
      ClassesAddedCons(g.modules.vals[token].injectables, g1.modules.vals[token].injectables, r.modules.vals[token].injectables, xs);
    }
  }

  /** The enhancer classes `reflectDynamicMetadata` finds on `component`: none without a prototype. */
  function EnhancersOf(refl: Reflection, component: Option<Token>): (xs: seq<Token>)
    ensures component.None? ==> xs == []
    ensures component.Some? ==> xs == DynamicInjectables(refl, component.value)
  {
    match component
    case None => []
    case Some(c) => DynamicInjectables(refl, c)
  }

  /**
   * `reflectDynamicMetadata(component, token)`: a component with a prototype
   * has each of its enhancers, as `DynamicInjectables` characterises them,
   * registered as an injectable of `token`, with one `addInjectable` call
   * each; a component without one registers nothing and logs nothing.
   */
  lemma DynamicMetadataRegisters(g: Graph, refl: Reflection, component: Option<Token>, token: Token)
    ensures var r := DynamicMetadataStored(g, refl, component, token);
      && InjectablesRegistered(g, r, EnhancersOf(refl, component), token)
      && LogGrows(g, r, 0, 0, 0, 0, 0)
      && (component.None? ==> r == g)
  {
    InjectablesRegister(g, EnhancersOf(refl, component), token);
  }

  // ---- reflectRelatedModules ----

  /** Some entry of `imports` resolves to `x`. */
  ghost predicate ImportedAs(imports: seq<ModuleRef>, x: Token) {
    exists i :: 0 <= i < |imports| && Resolve(imports[i]) == Some(x)
  }

  lemma ImportedAsCons(imports: seq<ModuleRef>, x: Token)
    requires imports != []
    ensures ImportedAs(imports, x) <==> Resolve(imports[0]) == Some(x) || ImportedAs(imports[1..], x)
  {
    if ImportedAs(imports[1..], x) {
      var i :| 0 <= i < |imports[1..]| && Resolve(imports[1..][i]) == Some(x);
      assert imports[i + 1] == imports[1..][i];
    }
    if ImportedAs(imports, x) && Resolve(imports[0]) != Some(x) {
      var i :| 0 <= i < |imports| && Resolve(imports[i]) == Some(x);
      assert imports[1..][i - 1] == imports[i];
    }
  }

  /**
   * From `g` to `r`, every import resolves and is announced with one
   * `addRelatedModule(class, token)` call, in order; when `token` is
   * registered, its imports gain exactly the imported classes that are
   * registered modules, and nothing else changes.
   */
  ghost predicate ImportsRegistered(g: Graph, r: Graph, imports: seq<ModuleRef>, token: Token) {
    && |r.calls| == |g.calls| + |imports| && r.calls[..|g.calls|] == g.calls
    && (forall i :: 0 <= i < |imports| ==>
         Resolve(imports[i]).Some? && r.calls[|g.calls| + i] == AddRelatedModuleCall(Resolve(imports[i]).value, token))
    && OthersKept(g, r, token)
    && (token in g.modules.vals ==>
         var before, after := g.modules.vals[token], r.modules.vals[token];
         && after == before.(imports := after.imports)
         && forall x :: x in after.imports <==> x in before.imports || (x in g.modules.vals && ImportedAs(imports, x)))
    && (token !in g.modules.vals ==> r.modules == g.modules)
  }

  lemma {:induction false} RelatedModulesRegister(g: Graph, imports: seq<ModuleRef>, token: Token)
    ensures var res := RelatedModulesStored(g, imports, token);
      res.Success? ==> ImportsRegistered(g, res.value, imports, token) && LogGrows(g, res.value, 0, |imports|, 0, 0, 0)
    decreases |imports|
  {
    if imports == [] {
      assert g.calls[..|g.calls|] == g.calls;
    } else {
      var res := RelatedModulesStored(g, imports, token);
      if res.Success? {
        var g1 := RelatedModuleAdded(g, Resolve(imports[0]).value, token);
        assert res == RelatedModulesStored(g1, imports[1..], token);
        RelatedModulesRegister(g1, imports[1..], token);
        RelatedStep(g, g1, res.value, imports, token);
      }
    }
  }

  lemma RelatedStep(g: Graph, g1: Graph, r: Graph, imports: seq<ModuleRef>, token: Token)
    requires imports != [] && Resolve(imports[0]).Some?
    requires g1 == RelatedModuleAdded(g, Resolve(imports[0]).value, token)
    requires ImportsRegistered(g1, r, imports[1..], token) && LogGrows(g1, r, 0, |imports| - 1, 0, 0, 0)
    ensures ImportsRegistered(g, r, imports, token) && LogGrows(g, r, 0, |imports|, 0, 0, 0)
  {
    var c := AddRelatedModuleCall(Resolve(imports[0]).value, token);
    LogStep(g, g1, c);
    assert r.calls[..|g.calls|] == r.calls[..|g1.calls|][..|g.calls|];
    forall i | 0 <= i < |imports|
      ensures Resolve(imports[i]).Some? && r.calls[|g.calls| + i] == AddRelatedModuleCall(Resolve(imports[i]).value, token)
    {
      if i == 0 {
        assert r.calls[|g.calls|] == r.calls[..|g1.calls|][|g.calls|];
      } else {
        assert imports[i] == imports[1..][i - 1];
      }
    }
    assert OthersKept(g, g1, token);
    OthersKeptTrans(g, g1, r, token);
    if token in g.modules.vals {
      forall x ensures ImportedAs(imports, x) <==> Resolve(imports[0]) == Some(x) || ImportedAs(imports[1..], x) {
        ImportedAsCons(imports, x);
      }
    }
  }

  // ---- storeProvider and reflectProviders ----

  /** The global providers among `providers`, in order. */
  function GlobalsOf(providers: seq<Provider>): (gs: seq<Provider>)
    decreases |providers|
    ensures forall p :: p in gs <==> p in providers && IsGlobal(p)
  {
    if providers == [] then []
    else
      assert forall p :: p in providers <==> p == providers[0] || p in providers[1..];
      (if IsGlobal(providers[0]) then [providers[0]] else []) + GlobalsOf(providers[1..])
  }

  /** One apply entry per global provider of `gs`, in order, each under the next fresh key from `n` on. */
  function GlobalEntries(gs: seq<Provider>, token: Token, n: nat, keyGen: nat -> Token): (es: seq<ApplyEntry>)
    decreases |gs|
    ensures |es| == |gs|
  {
    if gs == [] then []
    else [ApplyEntry(token, keyGen(n), ProviderToken(gs[0]))] + GlobalEntries(gs[1..], token, n + 1, keyGen)
  }

  /** The `i`-th entry belongs to the `i`-th global provider, under the `i`-th fresh key. */
  lemma {:induction false} GlobalEntriesAt(gs: seq<Provider>, token: Token, n: nat, keyGen: nat -> Token)
    ensures forall i :: 0 <= i < |gs| ==>
      GlobalEntries(gs, token, n, keyGen)[i] == ApplyEntry(token, keyGen(n + i), ProviderToken(gs[i]))
    decreases |gs|
  {
    if gs != [] {
      GlobalEntriesAt(gs[1..], token, n + 1, keyGen);
      var es, rest := GlobalEntries(gs, token, n, keyGen), GlobalEntries(gs[1..], token, n + 1, keyGen);
      forall i | 1 <= i < |gs| ensures es[i] == ApplyEntry(token, keyGen(n + i), ProviderToken(gs[i])) {
        assert es[i] == rest[i - 1] && gs[i] == gs[1..][i - 1];
      }
    }
  }

  /** The keys `providers` are registered under: a provider's own token, or, for a global provider, the next fresh key from `n` on. */
  function ProviderKeys(providers: seq<Provider>, n: nat, keyGen: nat -> Token): (ks: seq<Token>)
    decreases |providers|
    ensures |ks| == |providers|
  {
    if providers == [] then []
    else if IsGlobal(providers[0]) then [keyGen(n)] + ProviderKeys(providers[1..], n + 1, keyGen)
    else [ProviderToken(providers[0])] + ProviderKeys(providers[1..], n, keyGen)
  }

  /**
   * The keys of `ProviderKeys` are exactly the tokens of the providers that
   * are not global and the fresh keys `keyGen(n)` to `keyGen(n + g - 1)` of
   * the `g` global ones.
   */
  lemma ProviderKeysExactly(providers: seq<Provider>, n: nat, keyGen: nat -> Token)
    ensures var ks := ProviderKeys(providers, n, keyGen);
      && (forall p :: p in providers && !IsGlobal(p) ==> ProviderToken(p) in ks)
      && (forall j :: n <= j < n + |GlobalsOf(providers)| ==> keyGen(j) in ks)
      && (forall k :: k in ks ==>
           || (exists p :: p in providers && !IsGlobal(p) && ProviderToken(p) == k)
           || (exists j :: n <= j < n + |GlobalsOf(providers)| && keyGen(j) == k))
  {
    ProviderKeysCover(providers, n, keyGen);
    ProviderKeysOnly(providers, n, keyGen);
  }

  lemma {:induction false} ProviderKeysCover(providers: seq<Provider>, n: nat, keyGen: nat -> Token)
    ensures var ks := ProviderKeys(providers, n, keyGen);
      && (forall p :: p in providers && !IsGlobal(p) ==> ProviderToken(p) in ks)
      && (forall j :: n <= j < n + |GlobalsOf(providers)| ==> keyGen(j) in ks)
    decreases |providers|
  {
    if providers != [] {
      var p, rest := providers[0], providers[1..];
      assert providers == [p] + rest;
      GlobalsCons(p, rest);
      var n1 := if IsGlobal(p) then n + 1 else n;
      ProviderKeysCover(rest, n1, keyGen);
      assert forall q :: q in providers <==> q == p || q in rest;
    }
  }

  lemma {:induction false} ProviderKeysOnly(providers: seq<Provider>, n: nat, keyGen: nat -> Token)
    ensures forall k :: k in ProviderKeys(providers, n, keyGen) ==>
      || (exists p :: p in providers && !IsGlobal(p) && ProviderToken(p) == k)
      || (exists j :: n <= j < n + |GlobalsOf(providers)| && keyGen(j) == k)
    decreases |providers|
  {
    if providers != [] {
      var p, rest := providers[0], providers[1..];
      assert providers == [p] + rest;
      GlobalsCons(p, rest);
      var n1 := if IsGlobal(p) then n + 1 else n;
      ProviderKeysOnly(rest, n1, keyGen);
      assert forall q :: q in rest ==> q in providers;
    }
  }

  /** How `storeProvider` registers `p` when `key` is the next fresh key. */
  function StoredAs(p: Provider, key: Token): Provider {
    if IsGlobal(p) then CustomProvider(key, p.recipe) else p
  }

  /**
   * The providers as `storeProvider` registers them: a global one as a
   * custom provider of the next fresh key from `n` on, with its own recipe;
   * every other one as it is.
   */
  function StoredProviders(providers: seq<Provider>, n: nat, keyGen: nat -> Token): (sp: seq<Provider>)
    decreases |providers|
    ensures |sp| == |providers|
  {
    if providers == [] then []
    else [StoredAs(providers[0], keyGen(n))] + StoredProviders(providers[1..], if IsGlobal(providers[0]) then n + 1 else n, keyGen)
  }

  /**
   * The `i`-th stored provider is the `i`-th provider itself when that one is
   * not global, and otherwise a custom provider of the fresh key numbered
   * by the global providers before it; either way its token is the `i`-th
   * key of `ProviderKeys`.
   */
  lemma StoredProviderAt(providers: seq<Provider>, n: nat, keyGen: nat -> Token, i: nat)
    requires i < |providers|
    ensures var sp := StoredProviders(providers, n, keyGen);
      && ProviderToken(sp[i]) == ProviderKeys(providers, n, keyGen)[i]
      && (!IsGlobal(providers[i]) ==> sp[i] == providers[i])
      && (IsGlobal(providers[i]) ==> sp[i] == CustomProvider(keyGen(n + |GlobalsOf(providers[..i])|), providers[i].recipe))
  {
    StoredProviderKey(providers, n, keyGen, i);
    StoredProviderIs(providers, n, keyGen, i);
  }

  lemma {:induction false} StoredProviderKey(providers: seq<Provider>, n: nat, keyGen: nat -> Token, i: nat)
    requires i < |providers|
    ensures ProviderToken(StoredProviders(providers, n, keyGen)[i]) == ProviderKeys(providers, n, keyGen)[i]
    decreases i
  {
    if i > 0 {
      var n1 := if IsGlobal(providers[0]) then n + 1 else n;
      StoredProviderKey(providers[1..], n1, keyGen, i - 1);
      StoredTail(providers, n, n1, keyGen, i);
      KeysTail(providers, n, n1, keyGen, i);
    }
  }

  lemma {:induction false} StoredProviderIs(providers: seq<Provider>, n: nat, keyGen: nat -> Token, i: nat)
    requires i < |providers|
    ensures StoredProviders(providers, n, keyGen)[i] == StoredAs(providers[i], keyGen(n + |GlobalsOf(providers[..i])|))
    decreases i
  {
    if i == 0 {
      assert providers[..0] == [];
    } else {
      var n1 := if IsGlobal(providers[0]) then n + 1 else n;
      StoredProviderIs(providers[1..], n1, keyGen, i - 1);
      GlobalsPrefix(providers, i);
      StoredTail(providers, n, n1, keyGen, i);
    }
  }

  lemma KeysTail(providers: seq<Provider>, n: nat, n1: nat, keyGen: nat -> Token, i: nat)
    requires 0 < i < |providers| && n1 == if IsGlobal(providers[0]) then n + 1 else n
    ensures ProviderKeys(providers, n, keyGen)[i] == ProviderKeys(providers[1..], n1, keyGen)[i - 1]
  {
  }

  lemma StoredTail(providers: seq<Provider>, n: nat, n1: nat, keyGen: nat -> Token, i: nat)
    requires 0 < i < |providers| && n1 == if IsGlobal(providers[0]) then n + 1 else n
    ensures StoredProviders(providers, n, keyGen)[i] == StoredProviders(providers[1..], n1, keyGen)[i - 1]
    ensures providers[i] == providers[1..][i - 1]
  {
  }

  lemma GlobalsPrefix(providers: seq<Provider>, i: nat)
    requires 0 < i <= |providers|
    ensures |GlobalsOf(providers[..i])| == (if IsGlobal(providers[0]) then 1 else 0) + |GlobalsOf(providers[1..][..i - 1])|
  {
    assert providers[..i] == [providers[0]] + providers[1..][..i - 1];
    GlobalsCons(providers[0], providers[1..][..i - 1]);
  }

  lemma StoredProvidersStep(p: Provider, rest: seq<Provider>, n: nat, n1: nat, keyGen: nat -> Token)
    requires n1 == if IsGlobal(p) then n + 1 else n
    ensures StoredProviders([p] + rest, n, keyGen) == [StoredAs(p, keyGen(n))] + StoredProviders(rest, n1, keyGen)
  {
    assert ([p] + rest)[1..] == rest;
  }

  /**
   * From `before` to `after`, the providers `sp` are put under the keys `ks`
   * one after the other, as `Map.prototype.set` does: each key holds the
   * wrapper of the last provider put under it, every other entry is kept,
   * and the keys already there keep their order.
   */
  ghost predicate ProvidersAdded(before: OMap<Wrapper>, after: OMap<Wrapper>, ks: seq<Token>, sp: seq<Provider>) {
    && |ks| == |sp|
    && (forall k :: k in after.vals <==> k in before.vals || k in ks)
    && (forall i :: 0 <= i < |ks| && ks[i] !in ks[i + 1..] ==> after.vals[ks[i]] == NewWrapper(sp[i]))
    && (forall k :: k in before.vals && k !in ks ==> after.vals[k] == before.vals[k])
    && before.keys <= after.keys
  }

  lemma ProvidersAddedNone(m: OMap<Wrapper>)
    ensures ProvidersAdded(m, m, [], [])
  {
  }

  /** Putting `sp[0]` under `ks[0]` and then the rest puts all of them. */
  lemma ProvidersAddedCons(before: OMap<Wrapper>, mid: OMap<Wrapper>, after: OMap<Wrapper>, ks: seq<Token>, sp: seq<Provider>)
    requires ks != [] && |ks| == |sp| && mid == before.Put(ks[0], NewWrapper(sp[0]))
    requires ProvidersAdded(mid, after, ks[1..], sp[1..])
    ensures ProvidersAdded(before, after, ks, sp)
  {
    assert forall k :: k in ks <==> k == ks[0] || k in ks[1..];
    forall i | 1 <= i < |ks| && ks[i] !in ks[i + 1..] ensures after.vals[ks[i]] == NewWrapper(sp[i]) {
      assert ks[1..][i - 1] == ks[i] && ks[1..][i..] == ks[i + 1..] && sp[1..][i - 1] == sp[i];
    }
  }

  /** The enhancers of each provider with a prototype, provider after provider. */
  function ProviderEnhancers(refl: Reflection, providers: seq<Provider>): (xs: seq<Token>)
    decreases |providers|
    ensures forall x :: x in xs <==> exists p :: p in providers && p.ClassProvider? && x in DynamicInjectables(refl, p.cls)
  {
    if providers == [] then []
    else
      assert forall p :: p in providers <==> p == providers[0] || p in providers[1..];
      EnhancersOf(refl, PrototypeOf(providers[0])) + ProviderEnhancers(refl, providers[1..])
  }

  /**
   * From `before` to `after`, a module record gains `providers` (`n` fresh
   * keys assigned before) and their enhancers; nothing else in it changes.
   */
  ghost predicate ProvidersRecord(before: ModuleRecord, after: ModuleRecord, refl: Reflection, providers: seq<Provider>, n: nat, keyGen: nat -> Token) {
    && after == before.(providers := after.providers, injectables := after.injectables)
    && ProvidersAdded(before.providers, after.providers, ProviderKeys(providers, n, keyGen), StoredProviders(providers, n, keyGen))
    && ClassesAdded(before.injectables, after.injectables, ProviderEnhancers(refl, providers))
  }

  /**
   * From `st` to `r`, `providers` are stored into `token`: one apply entry
   * per global provider, in order; when the module is registered, its
   * providers gain exactly the keys of `ProviderKeys`, each holding the
   * wrapper of the last stored provider put under it, earlier providers
   * under other keys are kept, its injectables gain the enhancers of the
   * class providers, and nothing else changes.
   */
  ghost predicate ProvidersRegistered(st: ScanState, r: ScanState, refl: Reflection, providers: seq<Provider>, token: Token, keyGen: nat -> Token) {
    && r.applyMap == st.applyMap + GlobalEntries(GlobalsOf(providers), token, |st.applyMap|, keyGen)
    && OthersKept(st.graph, r.graph, token)
    && (token in st.graph.modules.vals ==>
         ProvidersRecord(st.graph.modules.vals[token], r.graph.modules.vals[token], refl, providers, |st.applyMap|, keyGen))
    && (token !in st.graph.modules.vals ==> r.graph.modules == st.graph.modules)
  }

  lemma {:induction false} ProvidersRegister(st: ScanState, refl: Reflection, providers: seq<Provider>, token: Token, keyGen: nat -> Token)
    ensures var r := ProvidersStored(st, refl, providers, token, keyGen);
      ProvidersRegistered(st, r, refl, providers, token, keyGen) && LogGrows(st.graph, r.graph, 0, 0, |providers|, 0, 0)
    decreases |providers|
  {
    if providers == [] {
      assert st.applyMap + [] == st.applyMap;
      if token in st.graph.modules.vals {
        ClassesAddedNone(st.graph.modules.vals[token].injectables);
        ProvidersAddedNone(st.graph.modules.vals[token].providers);
      }
    } else {
      var p := providers[0];
      var st1 := ProviderStored(st, p, token, keyGen);
      var st2 := st1.(graph := DynamicMetadataStored(st1.graph, refl, PrototypeOf(p), token));
      ProvidersRegister(st2, refl, providers[1..], token, keyGen);
      var r := ProvidersStored(st2, refl, providers[1..], token, keyGen);
      DynamicMetadataRegisters(st1.graph, refl, PrototypeOf(p), token);
      ProvidersStep(st, st1, st2, r, refl, providers, token, keyGen);
    }
  }

  lemma ProvidersStep(st: ScanState, st1: ScanState, st2: ScanState, r: ScanState, refl: Reflection, providers: seq<Provider>, token: Token, keyGen: nat -> Token)
    requires providers != [] && st1 == ProviderStored(st, providers[0], token, keyGen)
    requires st2.applyMap == st1.applyMap
    requires InjectablesRegistered(st1.graph, st2.graph, EnhancersOf(refl, PrototypeOf(providers[0])), token)
    requires LogGrows(st1.graph, st2.graph, 0, 0, 0, 0, 0)
    requires ProvidersRegistered(st2, r, refl, providers[1..], token, keyGen)
    requires LogGrows(st2.graph, r.graph, 0, 0, |providers| - 1, 0, 0)
    ensures ProvidersRegistered(st, r, refl, providers, token, keyGen) && LogGrows(st.graph, r.graph, 0, 0, |providers|, 0, 0)
  {
    var p, rest := providers[0], providers[1..];
    var n, n1 := |st.applyMap|, |st1.applyMap|;
    var q := if IsGlobal(p) then CustomProvider(keyGen(n), p.recipe) else p;
    assert st1.graph == ProviderAdded(st.graph, q, token);
    LogStep(st.graph, st1.graph, AddProviderCall(q, token));
    LogGrowsTrans(st.graph, st1.graph, st2.graph, 0, 0, 1, 0, 0, 0, 0, 0, 0, 0);
    LogGrowsTrans(st.graph, st2.graph, r.graph, 0, 0, 1, 0, 0, 0, 0, |providers| - 1, 0, 0);
    ApplyMapStep(st.applyMap, st1.applyMap, r.applyMap, p, rest, token, keyGen);
    assert OthersKept(st.graph, st1.graph, token);
    OthersKeptTrans(st.graph, st1.graph, st2.graph, token);
    OthersKeptTrans(st.graph, st2.graph, r.graph, token);
    if token in st.graph.modules.vals {
      var b, m1, m2, a := st.graph.modules.vals[token], st1.graph.modules.vals[token], st2.graph.modules.vals[token], r.graph.modules.vals[token];
      ProvidersRecordStep(b, m1, m2, a, refl, providers, n, n1, keyGen);
    }
  }

  /** The first provider and its enhancers, then the rest, on the module's record. */
  lemma ProvidersRecordStep(b: ModuleRecord, m1: ModuleRecord, m2: ModuleRecord, a: ModuleRecord,
                            refl: Reflection, providers: seq<Provider>, n: nat, n1: nat, keyGen: nat -> Token)
    requires providers != [] && n1 == if IsGlobal(providers[0]) then n + 1 else n
    requires var q := if IsGlobal(providers[0]) then CustomProvider(keyGen(n), providers[0].recipe) else providers[0];
      m1 == b.(providers := b.providers.Put(ProviderToken(q), NewWrapper(q)))
    requires m2 == m1.(injectables := m2.injectables) && ClassesAdded(m1.injectables, m2.injectables, EnhancersOf(refl, PrototypeOf(providers[0])))
    requires ProvidersRecord(m2, a, refl, providers[1..], n1, keyGen)
    ensures ProvidersRecord(b, a, refl, providers, n, keyGen)
  {
    var p, rest := providers[0], providers[1..];
    var q := if IsGlobal(p) then CustomProvider(keyGen(n), p.recipe) else p;
    assert providers == [p] + rest;
    ProviderKeysStep(p, rest, n, n1, keyGen);
    StoredProvidersStep(p, rest, n, n1, keyGen);
    ProviderEnhancersStep(refl, providers);
    ProviderRecordStep(b, m1, m2, a, q,
      EnhancersOf(refl, PrototypeOf(p)), ProviderEnhancers(refl, rest), ProviderKeys(rest, n1, keyGen), StoredProviders(rest, n1, keyGen));
  }

  lemma ProviderEnhancersStep(refl: Reflection, providers: seq<Provider>)
    requires providers != []
    ensures ProviderEnhancers(refl, providers) == EnhancersOf(refl, PrototypeOf(providers[0])) + ProviderEnhancers(refl, providers[1..])
  {
  }

  /** One provider put into a module record, then the enhancers and the rest: the three steps make one. */
  lemma ProviderRecordStep(b: ModuleRecord, m1: ModuleRecord, m2: ModuleRecord, a: ModuleRecord,
                           q: Provider, e1: seq<Token>, e2: seq<Token>, ks: seq<Token>, sp: seq<Provider>)
    requires m1 == b.(providers := b.providers.Put(ProviderToken(q), NewWrapper(q)))
    requires m2 == m1.(injectables := m2.injectables) && ClassesAdded(m1.injectables, m2.injectables, e1)
    requires a == m2.(providers := a.providers, injectables := a.injectables)
    requires ProvidersAdded(m2.providers, a.providers, ks, sp)
    requires ClassesAdded(m2.injectables, a.injectables, e2)
    ensures a == b.(providers := a.providers, injectables := a.injectables)
    ensures ProvidersAdded(b.providers, a.providers, [ProviderToken(q)] + ks, [q] + sp)
    ensures ClassesAdded(b.injectables, a.injectables, e1 + e2)
  {
    ClassesAddedJoin(b.injectables, m2.injectables, a.injectables, e1, e2);
    assert ([ProviderToken(q)] + ks)[1..] == ks && ([q] + sp)[1..] == sp;
    ProvidersAddedCons(b.providers, m1.providers, a.providers, [ProviderToken(q)] + ks, [q] + sp);
  }

  /** The apply entries of the first provider, then those of the rest. */
  lemma ApplyMapStep(m: seq<ApplyEntry>, m1: seq<ApplyEntry>, mr: seq<ApplyEntry>, p: Provider, rest: seq<Provider>, token: Token, keyGen: nat -> Token)
    requires m1 == if IsGlobal(p) then m + [ApplyEntry(token, keyGen(|m|), ProviderToken(p))] else m
    requires mr == m1 + GlobalEntries(GlobalsOf(rest), token, |m1|, keyGen)
    ensures mr == m + GlobalEntries(GlobalsOf([p] + rest), token, |m|, keyGen)
  {
    GlobalsCons(p, rest);
    if IsGlobal(p) {
      var gs := GlobalsOf(rest);
      assert ([p] + gs)[1..] == gs;
      GlobalEntriesCons([p] + gs, token, |m|, keyGen);
      Assoc(m, [ApplyEntry(token, keyGen(|m|), ProviderToken(p))], GlobalEntries(gs, token, |m| + 1, keyGen));
    } else {
      assert [] + GlobalsOf(rest) == GlobalsOf(rest);
    }
  }

  lemma GlobalsCons(p: Provider, rest: seq<Provider>)
    ensures GlobalsOf([p] + rest) == (if IsGlobal(p) then [p] else []) + GlobalsOf(rest)
  {
    assert ([p] + rest)[1..] == rest;
  }

  lemma GlobalEntriesCons(gs: seq<Provider>, token: Token, n: nat, keyGen: nat -> Token)
    requires gs != []
    ensures GlobalEntries(gs, token, n, keyGen) == [ApplyEntry(token, keyGen(n), ProviderToken(gs[0]))] + GlobalEntries(gs[1..], token, n + 1, keyGen)
  {
  }

  lemma ProviderKeysStep(p: Provider, rest: seq<Provider>, n: nat, n1: nat, keyGen: nat -> Token)
    requires n1 == if IsGlobal(p) then n + 1 else n
    ensures ProviderKeys([p] + rest, n, keyGen)
      == [if IsGlobal(p) then keyGen(n) else ProviderToken(p)] + ProviderKeys(rest, n1, keyGen)
  {
    assert ([p] + rest)[1..] == rest;
  }

  // ---- reflectControllers ----

  /** The enhancers of each controller, controller after controller. */
  function ControllerEnhancers(refl: Reflection, controllers: seq<Token>): (xs: seq<Token>)
    decreases |controllers|
    ensures forall x :: x in xs <==> exists c :: c in controllers && x in DynamicInjectables(refl, c)
  {
    if controllers == [] then []
    else
      assert forall c :: c in controllers <==> c == controllers[0] || c in controllers[1..];
      DynamicInjectables(refl, controllers[0]) + ControllerEnhancers(refl, controllers[1..])
  }

  /**
   * From `g` to `r`, `controllers` are stored into `token`: when the module
   * is registered, each controller is one of its routes with a fresh
   * wrapper, its injectables gain the controllers' enhancers, and nothing
   * else changes.
   */
  ghost predicate ControllersRegistered(g: Graph, r: Graph, refl: Reflection, controllers: seq<Token>, token: Token) {
    && OthersKept(g, r, token)
    && (token in g.modules.vals ==>
         var before, after := g.modules.vals[token], r.modules.vals[token];
         && after == before.(routes := after.routes, injectables := after.injectables)
         && ClassesAdded(before.routes, after.routes, controllers)
         && ClassesAdded(before.injectables, after.injectables, ControllerEnhancers(refl, controllers)))
    && (token !in g.modules.vals ==> r.modules == g.modules)
  }

  lemma {:induction false} ControllersRegister(g: Graph, refl: Reflection, controllers: seq<Token>, token: Token)
    ensures var r := ControllersStored(g, refl, controllers, token);
      ControllersRegistered(g, r, refl, controllers, token) && LogGrows(g, r, 0, 0, 0, |controllers|, 0)
    decreases |controllers|
  {
    if controllers == [] {
      if token in g.modules.vals {
        ClassesAddedNone(g.modules.vals[token].routes);
        ClassesAddedNone(g.modules.vals[token].injectables);
      }
    } else {
      var c := controllers[0];
      var g1 := ControllerAdded(g, c, token);
      var g2 := DynamicMetadataStored(g1, refl, Some(c), token);
      ControllersRegister(g2, refl, controllers[1..], token);
      DynamicMetadataRegisters(g1, refl, Some(c), token);
      ControllersStep(g, g1, g2, ControllersStored(g2, refl, controllers[1..], token), refl, controllers, token);
    }
  }

  lemma ControllersStep(g: Graph, g1: Graph, g2: Graph, r: Graph, refl: Reflection, controllers: seq<Token>, token: Token)
    requires controllers != [] && g1 == ControllerAdded(g, controllers[0], token)
    requires InjectablesRegistered(g1, g2, EnhancersOf(refl, Some(controllers[0])), token)
    requires LogGrows(g1, g2, 0, 0, 0, 0, 0)
    requires ControllersRegistered(g2, r, refl, controllers[1..], token)
    requires LogGrows(g2, r, 0, 0, 0, |controllers| - 1, 0)
    ensures ControllersRegistered(g, r, refl, controllers, token) && LogGrows(g, r, 0, 0, 0, |controllers|, 0)
  {
    var c, rest := controllers[0], controllers[1..];
    LogStep(g, g1, AddControllerCall(c, token));
    LogGrowsTrans(g, g1, g2, 0, 0, 0, 1, 0, 0, 0, 0, 0, 0);
    assert OthersKept(g, g1, token);
    OthersKeptTrans(g, g1, g2, token);
    OthersKeptTrans(g, g2, r, token);
    if token in g.modules.vals {
      var b, m1, m2, a := g.modules.vals[token], g1.modules.vals[token], g2.modules.vals[token], r.modules.vals[token];
      ClassesAddedCons(b.routes, m1.routes, a.routes, controllers);
      ClassesAddedJoin(m1.injectables, m2.injectables, a.injectables, DynamicInjectables(refl, c), ControllerEnhancers(refl, rest));
    }
  }

  // ---- reflectExports ----

  /** `reflectExports` logs one `addExportedProvider` call per listed token and no other counted call. */
  lemma {:induction false} ExportsLogged(g: Graph, exports: seq<Token>, token: Token)
    requires token in g.modules.vals
    ensures LogGrows(g, ExportsStored(g, exports, token), 0, 0, 0, 0, |exports|)
    ensures OthersKept(g, ExportsStored(g, exports, token), token)
    ensures var before, after := g.modules.vals[token], ExportsStored(g, exports, token).modules.vals[token];
      after == before.(exports := after.exports)
    decreases |exports|
  {
    if exports != [] {
      var g1 := ExportAdded(g, exports[0], token);
      ExportsLogged(g1, exports[1..], token);
      LogStep(g, g1, AddExportedProviderCall(exports[0], token));
      assert OthersKept(g, g1, token);
      OthersKeptTrans(g, g1, ExportsStored(g1, exports[1..], token), token);
    }
  }
}
