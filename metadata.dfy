/**
 * Decorator metadata as explicit data. What `@UseGuards`, `@UseInterceptors`,
 * `@UseFilters`, `@UsePipes` and parameter pipes record on a class, on its
 * methods and on its route arguments is given as maps keyed by class, method
 * and metadata key. The prototype chain is given by each class's parent.
 */
module Metadata {
  import opened Wrappers
  import opened Descriptors

  type MethodName = string
  type MetaKey = string

  const GUARDS_METADATA: MetaKey := "__guards__"
  const INTERCEPTORS_METADATA: MetaKey := "__interceptors__"
  const EXCEPTION_FILTERS_METADATA: MetaKey := "__exceptionFilters__"
  const PIPES_METADATA: MetaKey := "__pipes__"

  /** The metadata keys whose classes the scanner registers as injectables. */
  const EnhancerKeys: seq<MetaKey> :=
    [GUARDS_METADATA, INTERCEPTORS_METADATA, EXCEPTION_FILTERS_METADATA, PIPES_METADATA]

  /**
   * One class: its superclass, the methods its own prototype defines, and the
   * method names the metadata scanner yields for it (own and inherited).
   */
  datatype ClassInfo = ClassInfo(parent: Option<Token>, ownMethods: set<MethodName>, methodNames: seq<MethodName>)

  datatype Reflection = Reflection(
    classes: map<Token, ClassInfo>,
    classMeta: map<(Token, MetaKey), seq<Token>>,
    methodMeta: map<(Token, MethodName, MetaKey), seq<Token>>,
    paramPipes: map<(Token, MethodName), seq<Token>>)

  function Lookup<K, V>(m: map<K, V>, k: K): (r: Option<V>)
    ensures r.Some? <==> k in m
    ensures r.Some? ==> r.value == m[k]
  {
    if k in m then Some(m[k]) else None
  }

  /**
   * Walks the prototype chain from `c`: the first prototype that defines
   * `method` as its own property decides, by the metadata stored on that
   * method under `key` (possibly none); reaching the end of the chain yields
   * none. `visited` only serves termination: a JavaScript prototype chain has
   * no cycle.
   */
  function ChainLookup(refl: Reflection, c: Token, key: MetaKey, name: MethodName, visited: set<Token>): (r: Option<seq<Token>>)
    decreases |refl.classes.Keys - visited|
    ensures r.Some? ==> exists a :: (a, name, key) in refl.methodMeta && refl.methodMeta[(a, name, key)] == r.value
    ensures c in refl.classes && c !in visited && name in refl.classes[c].ownMethods ==>
      r == Lookup(refl.methodMeta, (c, name, key))
  {
    if c !in refl.classes || c in visited then None
    else if name in refl.classes[c].ownMethods then Lookup(refl.methodMeta, (c, name, key))
    else
      match refl.classes[c].parent
      case None => None
      case Some(p) =>
        assert refl.classes.Keys - visited == (refl.classes.Keys - (visited + {c})) + {c};
        ChainLookup(refl, p, key, name, visited + {c})
  }

  /**
   * `reflectKeyMetadata(component, key, method)`: the classes recorded under
   * `key` on `method` as the component's prototype chain resolves it, or
   * none. Whatever it returns was recorded on some method of that name, and
   * a method the class defines itself shadows every inherited one.
   */
  function ReflectKeyMetadata(refl: Reflection, component: Token, key: MetaKey, name: MethodName): (r: Option<seq<Token>>)
    ensures r.Some? ==> exists a :: (a, name, key) in refl.methodMeta && refl.methodMeta[(a, name, key)] == r.value
    ensures component in refl.classes && name in refl.classes[component].ownMethods ==>
      r == Lookup(refl.methodMeta, (component, name, key))
    ensures (forall a :: (a, name, key) !in refl.methodMeta) ==> r == None
  {
    ChainLookup(refl, component, key, name, {})
  }

  /**
   * The classes `ChainLookup` inspects for `name` from `c`: `c` and its
   * ancestors, up to the first that defines `name` itself or the end of
   * the chain.
   */
  ghost function Chain(refl: Reflection, c: Token, name: MethodName, visited: set<Token>): set<Token>
    decreases |refl.classes.Keys - visited|
  {
    if c !in refl.classes || c in visited then {}
    else if name in refl.classes[c].ownMethods then {c}
    else
      match refl.classes[c].parent
      case None => {c}
      case Some(p) =>
        assert refl.classes.Keys - visited == (refl.classes.Keys - (visited + {c})) + {c};
        {c} + Chain(refl, p, name, visited + {c})
  }

  /** Marking classes as visited that the walk never reaches does not change where it ends. */
  lemma {:induction false} ChainIgnores(refl: Reflection, c: Token, key: MetaKey, name: MethodName, visited: set<Token>, extra: set<Token>)
    requires Chain(refl, c, name, visited) * extra == {}
    ensures ChainLookup(refl, c, key, name, visited + extra) == ChainLookup(refl, c, key, name, visited)
    decreases |refl.classes.Keys - visited|
  {
    if c in refl.classes && c !in visited && name !in refl.classes[c].ownMethods {
      assert c in Chain(refl, c, name, visited);
      match refl.classes[c].parent
      case None =>
      case Some(p) =>
        assert refl.classes.Keys - visited == (refl.classes.Keys - (visited + {c})) + {c};
        ChainIgnores(refl, p, key, name, visited + {c}, extra);
        assert visited + extra + {c} == (visited + {c}) + extra;
    }
  }

  /**
   * A class that does not define `name` itself inherits its parent's
   * metadata for `name`, provided the parent's chain does not lead back to
   * the class (a JavaScript prototype chain has no cycle).
   */
  lemma InheritedKeyMetadata(refl: Reflection, c: Token, p: Token, key: MetaKey, name: MethodName)
    requires c in refl.classes && name !in refl.classes[c].ownMethods && refl.classes[c].parent == Some(p)
    requires c !in Chain(refl, p, name, {})
    ensures ReflectKeyMetadata(refl, c, key, name) == ReflectKeyMetadata(refl, p, key, name)
  {
    ChainIgnores(refl, p, key, name, {}, {c});
    assert {} + {c} == {c};
  }

  function MethodNamesOf(refl: Reflection, c: Token): seq<MethodName> {
    if c in refl.classes then refl.classes[c].methodNames else []
  }

  /** The classes that `key` attaches to the given methods of `c`, flattened in order. */
  function MethodInjectables(refl: Reflection, c: Token, key: MetaKey, names: seq<MethodName>): (r: seq<Token>)
    ensures forall x :: x in r <==> exists n :: n in names && x in ReflectKeyMetadata(refl, c, key, n).GetOr([])
  {
    if names == [] then []
    else
      var rest := MethodInjectables(refl, c, key, names[1..]);
      assert forall n :: n in names <==> n == names[0] || n in names[1..];
      ReflectKeyMetadata(refl, c, key, names[0]).GetOr([]) + rest
  }

  /** A class is attached to `c` under `key` on the class itself or on one of its methods. */
  ghost predicate AttachedTo(refl: Reflection, c: Token, key: MetaKey, x: Token) {
    || x in Lookup(refl.classMeta, (c, key)).GetOr([])
    || exists n :: n in MethodNamesOf(refl, c) && x in ReflectKeyMetadata(refl, c, key, n).GetOr([])
  }

  /** `reflectInjectables(component, token, key)`: class-level classes, then each method's. */
  function ReflectInjectables(refl: Reflection, c: Token, key: MetaKey): (r: seq<Token>)
    ensures forall x :: x in r <==> AttachedTo(refl, c, key, x)
  {
    Lookup(refl.classMeta, (c, key)).GetOr([]) + MethodInjectables(refl, c, key, MethodNamesOf(refl, c))
  }

  /** The pipes recorded on the route arguments of the given methods of `c`. */
  function ParamPipes(refl: Reflection, c: Token, names: seq<MethodName>): (r: seq<Token>)
    ensures forall x :: x in r <==> exists n :: n in names && x in Lookup(refl.paramPipes, (c, n)).GetOr([])
  {
    if names == [] then []
    else
      var rest := ParamPipes(refl, c, names[1..]);
      assert forall n :: n in names <==> n == names[0] || n in names[1..];
      Lookup(refl.paramPipes, (c, names[0])).GetOr([]) + rest
  }

  /** `reflectParamInjectables(component, token, ROUTE_ARGS_METADATA)`. */
  function ReflectParamInjectables(refl: Reflection, c: Token): (r: seq<Token>)
    ensures forall x :: x in r <==> exists n :: n in MethodNamesOf(refl, c) && x in Lookup(refl.paramPipes, (c, n)).GetOr([])
  {
    ParamPipes(refl, c, MethodNamesOf(refl, c))
  }

  /**
   * What `reflectDynamicMetadata` registers for a class with a prototype:
   * guards, interceptors, filters and pipes, then parameter pipes. A class is
   * in the list exactly when it is attached to the component in one of
   * those ways.
   */
  function DynamicInjectables(refl: Reflection, c: Token): (r: seq<Token>)
    ensures forall x :: x in r <==>
      || AttachedTo(refl, c, GUARDS_METADATA, x)
      || AttachedTo(refl, c, INTERCEPTORS_METADATA, x)
      || AttachedTo(refl, c, EXCEPTION_FILTERS_METADATA, x)
      || AttachedTo(refl, c, PIPES_METADATA, x)
      || x in ReflectParamInjectables(refl, c)
  {
    ReflectInjectables(refl, c, GUARDS_METADATA)
    + ReflectInjectables(refl, c, INTERCEPTORS_METADATA)
    + ReflectInjectables(refl, c, EXCEPTION_FILTERS_METADATA)
    + ReflectInjectables(refl, c, PIPES_METADATA)
    + ReflectParamInjectables(refl, c)
  }
}
