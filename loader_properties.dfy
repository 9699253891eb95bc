/**
 * What the instance loader's trace promises: the whole prototype pass comes
 * before any instance step; every wrapper gets exactly one prototype step
 * and exactly one instance step, tagged with its own collection and module;
 * each module logs exactly once; and within a module providers come before
 * injectables, injectables before routes, routes before the log line.
 */
module LoaderProperties {
  import opened OrderedMaps
  import opened Descriptors
  import opened Container
  import opened InjectorModel
  import opened Loader

  /** Position of an event within its module's pass. */
  function Rank(e: Event): nat {
    match e
    case Proto(k, _, _) => KindRank(k)
    case Inst(k, _, _) => KindRank(k)
    case Log(_) => 3
  }

  function KindRank(k: Kind): nat {
    match k
    case Providers => 0
    case Injectables => 1
    case Routes => 2
  }

  ghost predicate AllProto(s: seq<Event>) {
    forall i :: 0 <= i < |s| ==> s[i].Proto?
  }

  ghost predicate NoProto(s: seq<Event>) {
    forall i :: 0 <= i < |s| ==> !s[i].Proto?
  }

  /** Events of the same module appear in rank order. */
  ghost predicate RankOrdered(s: seq<Event>) {
    forall i, j :: 0 <= i < j < |s| && s[i].owner == s[j].owner ==> Rank(s[i]) <= Rank(s[j])
  }

  /** Events of the same module and the same pass appear in rank order. */
  ghost predicate PhaseOrdered(s: seq<Event>) {
    forall i, j :: 0 <= i < j < |s| && s[i].owner == s[j].owner && s[i].Proto? == s[j].Proto? ==> Rank(s[i]) <= Rank(s[j])
  }

  ghost predicate OwnedBy(s: seq<Event>, ms: seq<Token>) {
    forall i :: 0 <= i < |s| ==> s[i].owner in ms
  }

  // ---- the prototype pass precedes the instance pass ----

  lemma {:induction false} PrototypePassAllProto(mods: OMap<ModuleRecord>, ms: seq<Token>)
    ensures AllProto(PrototypePass(mods, ms))
    decreases |ms|
  {
    if ms != [] {
      PrototypePassAllProto(mods, ms[1..]);
    }
  }

  lemma {:induction false} InstancePassNoProto(mods: OMap<ModuleRecord>, ms: seq<Token>)
    ensures NoProto(InstancePass(mods, ms))
    decreases |ms|
  {
    if ms != [] {
      InstancePassNoProto(mods, ms[1..]);
    }
  }

  /**
   * `createInstancesOfDependencies` completes the prototype pass before the
   * first instance step: no prototype step follows an instance step or a log line.
   */
  lemma PrototypesBeforeInstances(mods: OMap<ModuleRecord>)
    ensures forall i, j :: 0 <= i < j < |LoaderTrace(mods)| && LoaderTrace(mods)[j].Proto? ==> LoaderTrace(mods)[i].Proto?
  {
    PrototypePassAllProto(mods, mods.keys);
    InstancePassNoProto(mods, mods.keys);
  }

  // ---- exactly once ----

  lemma {:induction false} ProtosCount(k: Kind, m: Token, ts: seq<Token>, e: Event)
    requires Distinct(ts)
    ensures multiset(Protos(k, m, ts))[e] == if e.Proto? && e.kind == k && e.owner == m && e.token in ts then 1 else 0
    decreases |ts|
  {
    if ts != [] {
      ProtosCons(k, m, ts);
      ProtosCount(k, m, ts[1..], e);
      CountSplit([Proto(k, m, ts[0])], Protos(k, m, ts[1..]), Protos(k, m, ts), e);
      DistinctTail(ts);
      if !e.Log? {
        HeadOrTail(ts, e.token);
      }
    }
  }

  lemma ProtosCons(k: Kind, m: Token, ts: seq<Token>)
    requires ts != []
    ensures Protos(k, m, ts) == [Proto(k, m, ts[0])] + Protos(k, m, ts[1..])
  {
  }

  lemma {:induction false} InstsCount(k: Kind, m: Token, ts: seq<Token>, e: Event)
    requires Distinct(ts)
    ensures multiset(Insts(k, m, ts))[e] == if e.Inst? && e.kind == k && e.owner == m && e.token in ts then 1 else 0
    decreases |ts|
  {
    if ts != [] {
      InstsCons(k, m, ts);
      InstsCount(k, m, ts[1..], e);
      CountSplit([Inst(k, m, ts[0])], Insts(k, m, ts[1..]), Insts(k, m, ts), e);
      DistinctTail(ts);
      if !e.Log? {
        HeadOrTail(ts, e.token);
      }
    }
  }

  lemma InstsCons(k: Kind, m: Token, ts: seq<Token>)
    requires ts != []
    ensures Insts(k, m, ts) == [Inst(k, m, ts[0])] + Insts(k, m, ts[1..])
  {
  }

  /** Whether `e` is a step the loader owes module `m` with record `rec`, in either pass. */
  ghost predicate Owed(m: Token, rec: ModuleRecord, e: Event) {
    match e
    case Proto(k, o, t) => o == m && t in Keys(rec, k)
    case Inst(k, o, t) => o == m && t in Keys(rec, k)
    case Log(o) => o == m
  }

  lemma ModulePrototypesCount(m: Token, rec: ModuleRecord, e: Event)
    requires RecordValid(rec)
    ensures multiset(ModulePrototypes(m, rec))[e] == if e.Proto? && Owed(m, rec, e) then 1 else 0
  {
    ProtosCount(Providers, m, Keys(rec, Providers), e);
    ProtosCount(Injectables, m, Keys(rec, Injectables), e);
    ProtosCount(Routes, m, Keys(rec, Routes), e);
  }

  lemma ModuleInstancesCount(m: Token, rec: ModuleRecord, e: Event)
    requires RecordValid(rec)
    ensures multiset(ModuleInstances(m, rec))[e] == if !e.Proto? && Owed(m, rec, e) then 1 else 0
  {
    InstsCount(Providers, m, Keys(rec, Providers), e);
    InstsCount(Injectables, m, Keys(rec, Injectables), e);
    InstsCount(Routes, m, Keys(rec, Routes), e);
  }

  lemma {:induction false} PrototypePassCount(mods: OMap<ModuleRecord>, ms: seq<Token>, e: Event)
    requires Distinct(ms)
    requires forall m :: m in ms ==> RecordValid(RecordOf(mods, m))
    ensures multiset(PrototypePass(mods, ms))[e] == if e.Proto? && e.owner in ms && Owed(e.owner, RecordOf(mods, e.owner), e) then 1 else 0
    decreases |ms|
  {
    if ms != [] {
      DistinctTail(ms);
      ModulePrototypesCount(ms[0], RecordOf(mods, ms[0]), e);
      PrototypePassCount(mods, ms[1..], e);
      CountSplit(ModulePrototypes(ms[0], RecordOf(mods, ms[0])), PrototypePass(mods, ms[1..]), PrototypePass(mods, ms), e);
      HeadOrTail(ms, e.owner);
    }
  }

  lemma {:induction false} InstancePassCount(mods: OMap<ModuleRecord>, ms: seq<Token>, e: Event)
    requires Distinct(ms)
    requires forall m :: m in ms ==> RecordValid(RecordOf(mods, m))
    ensures multiset(InstancePass(mods, ms))[e] == if !e.Proto? && e.owner in ms && Owed(e.owner, RecordOf(mods, e.owner), e) then 1 else 0
    decreases |ms|
  {
    if ms != [] {
      DistinctTail(ms);
      ModuleInstancesCount(ms[0], RecordOf(mods, ms[0]), e);
      InstancePassCount(mods, ms[1..], e);
      CountSplit(ModuleInstances(ms[0], RecordOf(mods, ms[0])), InstancePass(mods, ms[1..]), InstancePass(mods, ms), e);
      HeadOrTail(ms, e.owner);
    }
  }

  /** Occurrences in a concatenation add up. */
  lemma CountSplit(a: seq<Event>, b: seq<Event>, ab: seq<Event>, e: Event)
    requires ab == a + b
    ensures multiset(ab)[e] == multiset(a)[e] + multiset(b)[e]
  {
  }

  lemma HeadOrTail(ms: seq<Token>, m: Token)
    requires ms != []
    ensures m in ms <==> m == ms[0] || m in ms[1..]
  {
    assert ms == [ms[0]] + ms[1..];
  }

  /**
   * Over a valid module graph, the loader's trace holds one prototype step
   * and one instance step for each wrapper of each collection of each
   * module, tagged with that collection and module, one log line per
   * module, and nothing else.
   */
  lemma ExactlyOnce(mods: OMap<ModuleRecord>)
    requires ModulesValid(mods)
    ensures forall k, m, t :: multiset(LoaderTrace(mods))[Proto(k, m, t)] == if m in mods.vals && t in Collection(mods.vals[m], k).vals then 1 else 0
    ensures forall k, m, t :: multiset(LoaderTrace(mods))[Inst(k, m, t)] == if m in mods.vals && t in Collection(mods.vals[m], k).vals then 1 else 0
    ensures forall m :: multiset(LoaderTrace(mods))[Log(m)] == if m in mods.vals then 1 else 0
  {
    forall k, m, t
      ensures multiset(LoaderTrace(mods))[Proto(k, m, t)] == if m in mods.vals && t in Collection(mods.vals[m], k).vals then 1 else 0
    {
      TraceCount(mods, Proto(k, m, t));
    }
    forall k, m, t
      ensures multiset(LoaderTrace(mods))[Inst(k, m, t)] == if m in mods.vals && t in Collection(mods.vals[m], k).vals then 1 else 0
    {
      TraceCount(mods, Inst(k, m, t));
    }
    forall m
      ensures multiset(LoaderTrace(mods))[Log(m)] == if m in mods.vals then 1 else 0
    {
      TraceCount(mods, Log(m));
    }
  }

  lemma TraceCount(mods: OMap<ModuleRecord>, e: Event)
    requires ModulesValid(mods)
    ensures multiset(LoaderTrace(mods))[e] == if e.owner in mods.vals && Present(mods.vals[e.owner], e) then 1 else 0
  {
    PrototypePassCount(mods, mods.keys, e);
    InstancePassCount(mods, mods.keys, e);
    if e.owner in mods.vals && !e.Log? {
      var rec := mods.vals[e.owner];
      assert RecordValid(rec);
      assert e.token in Collection(rec, e.kind).vals <==> e.token in Keys(rec, e.kind) by {
        match e.kind
        case Providers =>
        case Injectables =>
        case Routes =>
      }
    }
  }

  /** `e` names a wrapper present in `rec`, or is a log line. */
  ghost predicate Present(rec: ModuleRecord, e: Event) {
    e.Log? || e.token in Collection(rec, e.kind).vals
  }

  // ---- order within a module ----

  lemma ModulePrototypesOrdered(m: Token, rec: ModuleRecord)
    ensures RankOrdered(ModulePrototypes(m, rec)) && OwnedBy(ModulePrototypes(m, rec), [m])
  {
  }

  lemma ModuleInstancesOrdered(m: Token, rec: ModuleRecord)
    ensures RankOrdered(ModuleInstances(m, rec)) && OwnedBy(ModuleInstances(m, rec), [m])
  {
  }

  /** A block of module `m` followed by events of other modules stays rank-ordered. */
  lemma OrderedAppend(a: seq<Event>, b: seq<Event>, m: Token, rest: seq<Token>)
    requires RankOrdered(a) && OwnedBy(a, [m])
    requires RankOrdered(b) && OwnedBy(b, rest) && m !in rest
    ensures RankOrdered(a + b)
  {
    forall i, j | 0 <= i < j < |a + b| && (a + b)[i].owner == (a + b)[j].owner
      ensures Rank((a + b)[i]) <= Rank((a + b)[j])
    {
      if j < |a| {
        assert (a + b)[i] == a[i] && (a + b)[j] == a[j];
      } else if i >= |a| {
        assert (a + b)[i] == b[i - |a|] && (a + b)[j] == b[j - |a|];
      }
    }
  }

  lemma {:induction false} PrototypePassOrdered(mods: OMap<ModuleRecord>, ms: seq<Token>)
    requires Distinct(ms)
    ensures RankOrdered(PrototypePass(mods, ms)) && OwnedBy(PrototypePass(mods, ms), ms)
    decreases |ms|
  {
    if ms != [] {
      DistinctTail(ms);
      PrototypePassOrdered(mods, ms[1..]);
      ModulePrototypesOrdered(ms[0], RecordOf(mods, ms[0]));
      OrderedAppend(ModulePrototypes(ms[0], RecordOf(mods, ms[0])), PrototypePass(mods, ms[1..]), ms[0], ms[1..]);
    }
  }

  lemma {:induction false} InstancePassOrdered(mods: OMap<ModuleRecord>, ms: seq<Token>)
    requires Distinct(ms)
    ensures RankOrdered(InstancePass(mods, ms)) && OwnedBy(InstancePass(mods, ms), ms)
    decreases |ms|
  {
    if ms != [] {
      DistinctTail(ms);
      InstancePassOrdered(mods, ms[1..]);
      ModuleInstancesOrdered(ms[0], RecordOf(mods, ms[0]));
      OrderedAppend(ModuleInstances(ms[0], RecordOf(mods, ms[0])), InstancePass(mods, ms[1..]), ms[0], ms[1..]);
    }
  }

  /**
   * Within one module and one pass, steps on providers precede steps on
   * injectables, which precede steps on routes, which precede the module's
   * log line.
   */
  lemma InModuleOrder(mods: OMap<ModuleRecord>)
    requires mods.Valid()
    ensures PhaseOrdered(LoaderTrace(mods))
  {
    var p: seq<Event>, q: seq<Event> := PrototypePass(mods, mods.keys), InstancePass(mods, mods.keys);
    PrototypePassOrdered(mods, mods.keys);
    InstancePassOrdered(mods, mods.keys);
    PrototypePassAllProto(mods, mods.keys);
    InstancePassNoProto(mods, mods.keys);
    forall i, j | 0 <= i < j < |p + q| && (p + q)[i].owner == (p + q)[j].owner && (p + q)[i].Proto? == (p + q)[j].Proto?
      ensures Rank((p + q)[i]) <= Rank((p + q)[j])
    {
      if j < |p| {
        assert (p + q)[i] == p[i] && (p + q)[j] == p[j];
      } else if i >= |p| {
        assert (p + q)[i] == q[i - |p|] && (p + q)[j] == q[j - |p|];
      }
    }
  }

  // ---- the trace depends on the shape only ----

  lemma {:induction false} ShapeDeterminesPasses(a: OMap<ModuleRecord>, b: OMap<ModuleRecord>, ms: seq<Token>)
    requires SameShape(a, b)
    ensures PrototypePass(a, ms) == PrototypePass(b, ms) && InstancePass(a, ms) == InstancePass(b, ms)
    decreases |ms|
  {
    if ms != [] {
      ShapeDeterminesPasses(a, b, ms[1..]);
      var ra, rb := RecordOf(a, ms[0]), RecordOf(b, ms[0]);
      assert OutlineOf(ra) == OutlineOf(rb);
      assert Keys(ra, Providers) == Keys(rb, Providers);
      assert Keys(ra, Injectables) == Keys(rb, Injectables);
      assert Keys(ra, Routes) == Keys(rb, Routes);
    }
  }

  /** Instances already cached in wrappers do not change what the loader does. */
  lemma ShapeDeterminesTrace(a: OMap<ModuleRecord>, b: OMap<ModuleRecord>)
    requires SameShape(a, b)
    ensures LoaderTrace(a) == LoaderTrace(b)
  {
    ShapeDeterminesPasses(a, b, a.keys);
  }
}
