/**
 * `ApplicationConfig`: the registry of global guards, interceptors, pipes and
 * filters. Each is an ordered, append-only sequence; the order of
 * registration is the order of application at request time.
 */
module AppConfig {
  import opened Descriptors

  /** The four sequences as one value. */
  datatype Globals = Globals(guards: seq<Instance>, interceptors: seq<Instance>, pipes: seq<Instance>, filters: seq<Instance>)

  const NoGlobals := Globals([], [], [], [])

  /** The sequence that holds globals of kind `k`. */
  function Of(g: Globals, k: GlobalKind): seq<Instance> {
    match k
    case Guard => g.guards
    case Interceptor => g.interceptors
    case Pipe => g.pipes
    case Filter => g.filters
  }

  /** `addGlobal*` as a value: only the sequence of kind `k` grows, by exactly `x`. */
  function Append(g: Globals, k: GlobalKind, x: Instance): (r: Globals)
    ensures forall k' :: Of(r, k') == Of(g, k') + (if k' == k then [x] else [])
  {
    match k
    case Guard => g.(guards := g.guards + [x])
    case Interceptor => g.(interceptors := g.interceptors + [x])
    case Pipe => g.(pipes := g.pipes + [x])
    case Filter => g.(filters := g.filters + [x])
  }

  class ApplicationConfig {
    var globalGuards: seq<Instance>
    var globalInterceptors: seq<Instance>
    var globalPipes: seq<Instance>
    var globalFilters: seq<Instance>

    function Snapshot(): Globals
      reads this
    {
      Globals(globalGuards, globalInterceptors, globalPipes, globalFilters)
    }

    constructor ()
      ensures Snapshot() == NoGlobals
    {
      globalGuards, globalInterceptors, globalPipes, globalFilters := [], [], [], [];
    }

    method AddGlobalGuard(guard: Instance)
      modifies this
      ensures Snapshot() == Append(old(Snapshot()), Guard, guard)
    {
      globalGuards := globalGuards + [guard];
    }

    method AddGlobalInterceptor(interceptor: Instance)
      modifies this
      ensures Snapshot() == Append(old(Snapshot()), Interceptor, interceptor)
    {
      globalInterceptors := globalInterceptors + [interceptor];
    }

    method AddGlobalPipe(pipe: Instance)
      modifies this
      ensures Snapshot() == Append(old(Snapshot()), Pipe, pipe)
    {
      globalPipes := globalPipes + [pipe];
    }

    method AddGlobalFilter(filter: Instance)
      modifies this
      ensures Snapshot() == Append(old(Snapshot()), Filter, filter)
    {
      globalFilters := globalFilters + [filter];
    }
  }
}
