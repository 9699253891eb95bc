/**
 * Properties of the scanner relating several of its operations: what
 * `applyApplicationProviders` produces from the apply map, that a global
 * provider stored by `storeProvider` is found again by the apply step, and
 * what a scan leaves as each module's exports.
 */
module ScannerProperties {
  import opened Wrappers
  import opened OrderedMaps
  import opened Descriptors
  import opened Container
  import opened AppConfig
  import opened ScannerSpec

  // ---- applying the apply map ----

  /** Reference definition: the instances, in apply-map order, that entries of kind `k` resolve to. */
  function Applied(g: Graph, entries: seq<ApplyEntry>, k: GlobalKind): seq<Instance>
    decreases |entries|
  {
    if entries == [] then []
    else
      var e := entries[0];
      var here :=
        if e.moduleKey in g.modules.vals && e.providerKey in g.modules.vals[e.moduleKey].providers.vals
           && ApplyProvidersMap(e.kind) == Some(k)
        then [g.modules.vals[e.moduleKey].providers.vals[e.providerKey].instance]
        else [];
      here + Applied(g, entries[1..], k)
  }

  /** Every entry names a module, a provider of that module, and a reserved type. */
  ghost predicate AllResolve(g: Graph, entries: seq<ApplyEntry>) {
    forall i :: 0 <= i < |entries| ==> ApplyTarget(g, entries[i]).Success?
  }

  /** `applyApplicationProviders` reports no error exactly when every entry resolves. */
  lemma {:induction false} ApplyAllSucceeds(g: Graph, entries: seq<ApplyEntry>, cfg: Globals)
    ensures ApplyAll(g, entries, cfg).error.None? <==> AllResolve(g, entries)
    decreases |entries|
  {
    if entries != [] {
      var rest := entries[1..];
      match ApplyTarget(g, entries[0])
      case Failure(_) =>
      case Success(t) =>
        ApplyAllSucceeds(g, rest, Append(cfg, t.0, t.1));
        assert forall i :: 1 <= i < |entries| ==> entries[i] == rest[i - 1];
        assert AllResolve(g, entries) <==> AllResolve(g, rest);
    }
  }

  /**
   * When every entry resolves, `applyApplicationProviders` appends to each
   * global sequence exactly the instances of the entries of its kind, in
   * apply-map order.
   */
  lemma {:induction false} ApplyAllGlobals(g: Graph, entries: seq<ApplyEntry>, cfg: Globals)
    requires AllResolve(g, entries)
    ensures forall k :: Of(ApplyAll(g, entries, cfg).globals, k) == Of(cfg, k) + Applied(g, entries, k)
    decreases |entries|
  {
    if entries != [] {
      var rest := entries[1..];
      assert ApplyTarget(g, entries[0]).Success?;
      var t := ApplyTarget(g, entries[0]).value;
      var cfg1 := Append(cfg, t.0, t.1);
      assert AllResolve(g, rest) by {
        forall i | 0 <= i < |rest| ensures ApplyTarget(g, rest[i]).Success? {
          assert rest[i] == entries[i + 1];
        }
      }
      ApplyAllGlobals(g, rest, cfg1);
      assert ApplyAll(g, entries, cfg) == ApplyAll(g, rest, cfg1);
      forall k
        ensures Of(ApplyAll(g, entries, cfg).globals, k) == Of(cfg, k) + Applied(g, entries, k)
      {
        assert Applied(g, entries, k) == (if t.0 == k then [t.1] else []) + Applied(g, rest, k);
      }
    }
  }

  /**
   * An error stops the loop at the first entry that does not resolve,
   * and it is that entry's error.
   */
  lemma {:induction false} ApplyAllFirstError(g: Graph, entries: seq<ApplyEntry>, cfg: Globals)
    ensures var r := ApplyAll(g, entries, cfg);
      r.error.Some? ==>
        exists i :: 0 <= i < |entries| && ApplyTarget(g, entries[i]) == Failure(r.error.value)
          && forall j :: 0 <= j < i ==> ApplyTarget(g, entries[j]).Success?
    decreases |entries|
  {
    if entries != [] {
      match ApplyTarget(g, entries[0])
      case Failure(_) =>
        assert ApplyTarget(g, entries[0]) == Failure(ApplyAll(g, entries, cfg).error.value);
      case Success(t) =>
        var rest := entries[1..];
        ApplyAllFirstError(g, rest, Append(cfg, t.0, t.1));
        var r := ApplyAll(g, entries, cfg);
        if r.error.Some? {
          var i :| 0 <= i < |rest| && ApplyTarget(g, rest[i]) == Failure(r.error.value)
            && forall j :: 0 <= j < i ==> ApplyTarget(g, rest[j]).Success?;
          assert entries[i + 1] == rest[i];
          assert forall j :: 1 <= j < i + 1 ==> entries[j] == rest[j - 1];
        }
    }
  }

  /** Applying only appends: whatever the outcome, each global sequence keeps what it held before. */
  lemma {:induction false} ApplyAllAppends(g: Graph, entries: seq<ApplyEntry>, cfg: Globals)
    ensures forall k :: Of(cfg, k) <= Of(ApplyAll(g, entries, cfg).globals, k)
    decreases |entries|
  {
    if entries != [] {
      match ApplyTarget(g, entries[0])
      case Failure(_) =>
      case Success(t) =>
        var cfg1 := Append(cfg, t.0, t.1);
        ApplyAllAppends(g, entries[1..], cfg1);
        assert forall k :: Of(cfg, k) <= Of(cfg1, k);
    }
  }

  // ---- storeProvider, then applyApplicationProviders ----

  /**
   * A provider bound to a reserved token, stored into a registered module,
   * is registered under its fresh key, and the apply entry it adds resolves
   * to its own kind and to that wrapper's instance.
   */
  lemma GlobalProviderApplies(st: ScanState, p: Provider, token: Token, keyGen: nat -> Token)
    requires IsGlobal(p) && token in st.graph.modules.vals
    ensures var r := ProviderStored(st, p, token, keyGen);
      var key := keyGen(|st.applyMap|);
      && |r.applyMap| == |st.applyMap| + 1
      && r.applyMap[|st.applyMap|] == ApplyEntry(token, key, p.provide)
      && key in r.graph.modules.vals[token].providers.vals
      && ApplyTarget(r.graph, r.applyMap[|st.applyMap|])
           == Success((ApplyProvidersMap(p.provide).value, NewWrapper(CustomProvider(key, p.recipe)).instance))
  {
    var key := keyGen(|st.applyMap|);
    var r := ProviderStored(st, p, token, keyGen);
    assert r.graph.modules.vals[token].providers.vals[key] == NewWrapper(CustomProvider(key, p.recipe));
  }

  /**
   * Any other provider is registered under its own token in its module,
   * as a fresh wrapper, and the apply map is left as it was.
   */
  lemma PlainProviderStored(st: ScanState, p: Provider, token: Token, keyGen: nat -> Token)
    requires !IsGlobal(p) && token in st.graph.modules.vals
    ensures var r := ProviderStored(st, p, token, keyGen);
      && r.applyMap == st.applyMap
      && ProviderToken(p) in r.graph.modules.vals[token].providers.vals
      && r.graph.modules.vals[token].providers.vals[ProviderToken(p)] == NewWrapper(p)
      && r.graph.calls == st.graph.calls + [AddProviderCall(p, token)]
  {
  }

  // ---- exports after a scan ----

  /** The tokens module `m` of `u` declares as exports. */
  function DeclaredExports(u: Universe, m: Token): (r: set<Token>)
    ensures forall e :: e in r <==> e in DescriptorOf(u, m).exports
  {
    set e | e in DescriptorOf(u, m).exports
  }

  /** From `g` to `g'`, each module in `ts` adds its declared exports; every other module keeps its own. */
  ghost predicate ExportsGrew(u: Universe, g: Graph, g': Graph, ts: seq<Token>) {
    forall m :: m in g.modules.vals ==>
      && m in g'.modules.vals
      && g'.modules.vals[m].exports == g.modules.vals[m].exports + (if m in ts then DeclaredExports(u, m) else {})
  }

  /**
   * `scanModulesForDependencies` over distinct modules: each listed module's
   * exports grow by exactly its descriptor's exports; the others keep theirs.
   */
  lemma {:induction false} DependenciesExports(u: Universe, refl: Metadata.Reflection, st: ScanState, tokens: seq<Token>, keyGen: nat -> Token)
    requires Distinct(tokens)
    requires forall t :: t in tokens ==> t in st.graph.modules.vals
    ensures var res := DependenciesStored(u, refl, st, tokens, keyGen);
      res.Success? ==> ExportsGrew(u, st.graph, res.value.graph, tokens)
    decreases |tokens|
  {
    if tokens == [] {
      assert ExportsGrew(u, st.graph, st.graph, tokens);
    } else {
      var first := ModuleDependenciesStored(u, refl, st, tokens[0], keyGen);
      if first.Success? {
        var st1, rest := first.value, tokens[1..];
        DistinctTail(tokens);
        DependenciesExports(u, refl, st1, rest, keyGen);
        var res := DependenciesStored(u, refl, st1, rest, keyGen);
        if res.Success? {
          ExportsCombine(u, st.graph, st1.graph, res.value.graph, tokens);
        }
      }
    }
  }

  /** One module's exports step followed by the rest of the loop. */
  lemma ExportsCombine(u: Universe, g0: Graph, g1: Graph, g2: Graph, tokens: seq<Token>)
    requires tokens != [] && tokens[0] in g0.modules.vals && tokens[0] !in tokens[1..]
    requires SameModules(g0, g1)
    requires forall m :: m in g0.modules.vals && m != tokens[0] ==> g1.modules.vals[m].exports == g0.modules.vals[m].exports
    requires g1.modules.vals[tokens[0]].exports == g0.modules.vals[tokens[0]].exports + set e | e in DescriptorOf(u, tokens[0]).exports
    requires ExportsGrew(u, g1, g2, tokens[1..])
    ensures ExportsGrew(u, g0, g2, tokens)
  {
    forall m | m in g0.modules.vals
      ensures m in g2.modules.vals
      ensures g2.modules.vals[m].exports == g0.modules.vals[m].exports + (if m in tokens then DeclaredExports(u, m) else {})
    {
      assert m in tokens <==> m == tokens[0] || m in tokens[1..];
    }
  }

  lemma DistinctKeys(g: Graph)
    requires GraphValid(g)
    ensures Distinct(g.modules.keys)
    ensures forall t :: t in g.modules.keys ==> t in g.modules.vals
  {
  }

  /**
   * After a successful scan, every registered module that the scan
   * discovered exports exactly the tokens its descriptor lists, and a module
   * registered earlier adds those tokens to what it exported before.
   */
  lemma ScanExports(u: Universe, refl: Metadata.Reflection, st: ScanState, root: ModuleRef, keyGen: nat -> Token)
    requires GraphValid(st.graph)
    ensures var res := Scan(u, refl, st, root, keyGen);
      res.Success? ==>
        forall m :: m in res.value.graph.modules.vals ==>
          res.value.graph.modules.vals[m].exports
            == (if m in st.graph.modules.vals then st.graph.modules.vals[m].exports else {})
               + DeclaredExports(u, m)
  {
    var d := ScanForModules(u, st.graph, root, {});
    if d.Success? {
      var g := d.value.graph;
      DiscoveryGrows(u, st.graph, root, {});
      DistinctKeys(g);
      DependenciesExports(u, refl, st.(graph := g), g.modules.keys, keyGen);
    }
  }

  // ---- module discovery reaches every import ----

  /**
   * Each reference in `added` names a stored module, and every import of
   * that module is in the registry `reg`.
   */
  ghost predicate ClosedOver(u: Universe, reg: set<ModuleRef>, added: set<ModuleRef>, g: Graph) {
    forall x :: x in added ==>
      && Resolve(x).Some?
      && Resolve(x).value in g.modules.vals
      && forall j :: 0 <= j < |DescriptorOf(u, Resolve(x).value).imports| ==> DescriptorOf(u, Resolve(x).value).imports[j] in reg
  }

  lemma ClosedGrows(u: Universe, reg: set<ModuleRef>, added: set<ModuleRef>, g: Graph, reg': set<ModuleRef>, g': Graph)
    requires ClosedOver(u, reg, added, g) && reg <= reg' && OnlyNewEmptyModules(g, g')
    ensures ClosedOver(u, reg', added, g')
  {
  }

  /** What `scanForModules` adds to the registry is closed under imports. */
  lemma {:induction false} DiscoveryClosed(u: Universe, g: Graph, r: ModuleRef, visited: set<ModuleRef>)
    ensures var res := ScanForModules(u, g, r, visited);
      res.Success? ==> ClosedOver(u, res.value.registry, res.value.registry - visited, res.value.graph)
    decreases VisitMeasure(u, r, visited), 0, 0
  {
    var res := ScanForModules(u, g, r, visited);
    if res.Success? {
      var cls := Resolve(r).value;
      var g1 := ModuleAdded(g, cls);
      ScanForModulesUnfold(u, g, r, visited);
      VisitDecreases(u, r, visited);
      ImportsClosed(u, g1, cls, 0, visited + {r});
      DiscoveryGrows(u, g, r, visited);
      var d := res.value;
      ClosedAddRoot(u, d.registry, visited, d.graph, r);
    }
  }

  lemma ClosedAddRoot(u: Universe, reg: set<ModuleRef>, visited: set<ModuleRef>, g: Graph, r: ModuleRef)
    requires ClosedOver(u, reg, reg - (visited + {r}), g)
    requires Resolve(r).Some? && Resolve(r).value in g.modules.vals
    requires forall j :: 0 <= j < |DescriptorOf(u, Resolve(r).value).imports| ==> DescriptorOf(u, Resolve(r).value).imports[j] in reg
    ensures ClosedOver(u, reg, reg - visited, g)
  {
    if r in visited {
      assert reg - visited == reg - (visited + {r});
    } else {
      assert reg - visited <= (reg - (visited + {r})) + {r};
    }
  }

  /** The import loop: what it adds is closed, and every import from `i` on ends up registered. */
  lemma {:induction false} ImportsClosed(u: Universe, g: Graph, cls: Token, i: nat, visited: set<ModuleRef>)
    requires i <= |DescriptorOf(u, cls).imports|
    ensures var res := ScanImports(u, g, cls, i, visited);
      res.Success? ==>
        && ClosedOver(u, res.value.registry, res.value.registry - visited, res.value.graph)
        && forall j :: i <= j < |DescriptorOf(u, cls).imports| ==> DescriptorOf(u, cls).imports[j] in res.value.registry
    decreases Pending(u, visited), 1, |DescriptorOf(u, cls).imports| - i
  {
    var imports := DescriptorOf(u, cls).imports;
    var res := ScanImports(u, g, cls, i, visited);
    if i < |imports| && res.Success? {
      ScanImportsStep(u, g, cls, i, visited);
      var r := imports[i];
      var e := res.value;
      if r in visited {
        ImportsClosed(u, g, cls, i + 1, visited);
        ImportsFrom(imports, i, e.registry);
      } else {
        assert VisitMeasure(u, r, visited) == Pending(u, visited);
        var d := ScanForModules(u, g, r, visited).value;
        DiscoveryClosed(u, g, r, visited);
        DiffShrinks(ImportRefs(u), visited, d.registry);
        ImportsClosed(u, d.graph, cls, i + 1, d.registry);
        ImportsGrow(u, d.graph, cls, i + 1, d.registry);
        ClosedJoin(u, visited, d.registry, d.graph, e.registry, e.graph);
        ImportsFrom(imports, i, e.registry);
      }
    }
  }

  /** Discovery from `visited` to `reg1`, then from `reg1` to `reg2`: what both add together is closed. */
  lemma ClosedJoin(u: Universe, visited: set<ModuleRef>, reg1: set<ModuleRef>, g1: Graph, reg2: set<ModuleRef>, g2: Graph)
    requires ClosedOver(u, reg1, reg1 - visited, g1) && ClosedOver(u, reg2, reg2 - reg1, g2)
    requires visited <= reg1 <= reg2 && OnlyNewEmptyModules(g1, g2)
    ensures ClosedOver(u, reg2, reg2 - visited, g2)
  {
    ClosedGrows(u, reg1, reg1 - visited, g1, reg2, g2);
    assert reg2 - visited == (reg2 - reg1) + (reg1 - visited);
  }

  /** Imports from `i + 1` on registered, and import `i` too, means imports from `i` on are. */
  lemma ImportsFrom(imports: seq<ModuleRef>, i: nat, reg: set<ModuleRef>)
    requires i < |imports| && imports[i] in reg
    requires forall j :: i + 1 <= j < |imports| ==> imports[j] in reg
    ensures forall j :: i <= j < |imports| ==> imports[j] in reg
  {
  }

  /**
   * Module discovery from the root, with an empty registry, registers the
   * root and every module reachable from it through imports, each resolved
   * and stored.
   */
  lemma DiscoveryComplete(u: Universe, g: Graph, root: ModuleRef)
    ensures var res := ScanForModules(u, g, root, {});
      res.Success? ==> root in res.value.registry && ClosedOver(u, res.value.registry, res.value.registry, res.value.graph)
  {
    DiscoveryClosed(u, g, root, {});
    var res := ScanForModules(u, g, root, {});
    if res.Success? {
      assert res.value.registry - {} == res.value.registry;
    }
  }
}
