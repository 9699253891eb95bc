/**
 * The declarative input of the boot pipeline, as plain data: module
 * descriptors (what `@Module({...})` records), providers, forward references
 * and the four reserved tokens of global providers.
 */
module Descriptors {
  import opened Wrappers

  /** A registrable name: a string token or the name of a class. */
  type Token = string

  /** An object produced by the injector (or given by `useValue`); `Undefined` until resolved. */
  datatype Instance = Undefined | Ref(handle: nat)

  /**
   * An entry of `imports`: a class, a forward reference (a thunk whose
   * evaluation yields the class, or nothing), or a nil entry.
   */
  datatype ModuleRef = Direct(cls: Token) | ForwardRef(target: Option<Token>) | Nil

  /** Evaluates a forward reference; `None` is a nil module. */
  function Resolve(r: ModuleRef): Option<Token> {
    match r
    case Direct(cls) => Some(cls)
    case ForwardRef(target) => target
    case Nil => None
  }

  /** The four shapes of a custom provider descriptor. */
  datatype Recipe =
    | UseValue(value: Instance)
    | UseFactory(inject: seq<Token>)
    | UseClass(useClass: Token)
    | UseExisting(existing: Token)

  /** A plain class, or a custom `{ provide, use... }` descriptor. */
  datatype Provider = ClassProvider(cls: Token) | CustomProvider(provide: Token, recipe: Recipe)

  /** The token a provider is registered under. */
  function ProviderToken(p: Provider): Token {
    match p
    case ClassProvider(cls) => cls
    case CustomProvider(provide, _) => provide
  }

  /**
   * The class whose prototype metadata can be reflected: a class provider has
   * one, a custom descriptor is a plain object and has none.
   */
  function PrototypeOf(p: Provider): (c: Option<Token>)
    ensures c.Some? <==> p.ClassProvider?
    ensures p.ClassProvider? ==> c == Some(p.cls)
  {
    match p
    case ClassProvider(cls) => Some(cls)
    case CustomProvider(_, _) => None
  }

  datatype ModuleDescriptor = ModuleDescriptor(
    imports: seq<ModuleRef>,
    providers: seq<Provider>,
    controllers: seq<Token>,
    exports: seq<Token>)

  /** The `@Module` metadata of every class that has any. */
  type Universe = map<Token, ModuleDescriptor>

  /** Reading metadata of a class that has none yields empty lists. */
  function DescriptorOf(u: Universe, cls: Token): (d: ModuleDescriptor)
    ensures cls in u ==> d == u[cls]
    ensures cls !in u ==> d.imports == [] && d.providers == [] && d.controllers == [] && d.exports == []
  {
    if cls in u then u[cls] else ModuleDescriptor([], [], [], [])
  }

  /** Every module reference that occurs in some descriptor's `imports`. */
  function ImportRefs(u: Universe): (refs: set<ModuleRef>)
    ensures forall c, i :: c in u && 0 <= i < |u[c].imports| ==> u[c].imports[i] in refs
  {
    set c, i | c in u && 0 <= i < |u[c].imports| :: u[c].imports[i]
  }

  const APP_INTERCEPTOR: Token := "APP_INTERCEPTOR"
  const APP_PIPE: Token := "APP_PIPE"
  const APP_GUARD: Token := "APP_GUARD"
  const APP_FILTER: Token := "APP_FILTER"

  /** The cross-cutting kinds a global provider can have. */
  datatype GlobalKind = Guard | Interceptor | Pipe | Filter

  function KindToken(k: GlobalKind): Token {
    match k
    case Guard => APP_GUARD
    case Interceptor => APP_INTERCEPTOR
    case Pipe => APP_PIPE
    case Filter => APP_FILTER
  }

  /**
   * `getApplyProvidersMap`: the reserved tokens are its keys; each selects
   * the `ApplicationConfig` append of its own kind.
   */
  function ApplyProvidersMap(t: Token): (r: Option<GlobalKind>)
    ensures r.Some? <==> t in {APP_INTERCEPTOR, APP_PIPE, APP_GUARD, APP_FILTER}
    ensures r.Some? ==> KindToken(r.value) == t
    ensures t == APP_INTERCEPTOR ==> r == Some(Interceptor)
    ensures t == APP_GUARD ==> r == Some(Guard)
    ensures t == APP_PIPE ==> r == Some(Pipe)
    ensures t == APP_FILTER ==> r == Some(Filter)
  {
    if t == APP_INTERCEPTOR then Some(Interceptor)
    else if t == APP_PIPE then Some(Pipe)
    else if t == APP_GUARD then Some(Guard)
    else if t == APP_FILTER then Some(Filter)
    else None
  }

  /** Each kind's token selects that kind back, so the dispatch is one-to-one. */
  lemma KindTokenRoundTrip(k: GlobalKind)
    ensures ApplyProvidersMap(KindToken(k)) == Some(k)
  {
  }
}
