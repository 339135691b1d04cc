/** The import reconciler of the sidecar (internal/loopback/imports.go) with
    the proxies it starts and closes. */
module Imports {
  import opened Ordering
  import opened PortForward

  datatype Container = Container(id: string, name: string, running: bool, pid: int, portHelper: bool, desktop: bool)

  datatype Spec = Spec(container: Container, mapping: Mapping)

  /** The container ID and the mapping name. */
  datatype Key = Key(id: string, name: string)

  datatype Mode = Transaction | Event

  type Proxy = nat

  /** A missing proxy is the zero entry that Go reads from a missing key. */
  datatype Active = Active(spec: Spec, proxy: Option<Proxy>)

  const NO_MAPPING := Mapping("", "", "", 0, 0, 0)
  const ZERO := Active(Spec(Container("", "", false, 0, false, false), NO_MAPPING), None)

  datatype Warning = WorkloadStopped(spec: Spec) | DesktopConflict(spec: Spec)

  datatype Failure = StartFailed(spec: Spec) | RolledBack(spec: Spec)

  datatype Probed = Clear | Gone | Conflict | Broken

  /** What the outside answers during one Apply. Each spec is probed and
      started at most once, so answers are functions of the spec. Each phase
      reads the running flag of a proxy once; a proxy may exit before any of
      the three readings. */
  datatype Outside = Outside(
    probe: Spec -> Probed,
    stop: string -> bool,
    start: Spec -> bool,
    exitsBeforeProbe: set<Proxy>,
    exitsBeforeStart: set<Proxy>,
    exitsBeforeSwap: set<Proxy>)

  function KeyOf(spec: Spec): Key { Key(spec.container.id, spec.mapping.name) }

  predicate EqualSpec(a: Spec, b: Spec)
  {
    && a.container.id == b.container.id
    && a.container.pid == b.container.pid
    && a.mapping.name == b.mapping.name
    && a.mapping.sourceAddress == b.mapping.sourceAddress
    && a.mapping.sourcePort == b.mapping.sourcePort
    && a.mapping.targetPort == b.mapping.targetPort
  }

  // ---- specs ----------------------------------------------------------------

  predicate ContainerLe(a: Container, b: Container)
  {
    if a.name != b.name then StringLe(a.name, b.name) else StringLe(a.id, b.id)
  }

  predicate Eligible(c: Container) { c.running && c.pid > 0 && !c.portHelper }

  function ForMappings(c: Container, ms: seq<Mapping>): (r: seq<Spec>)
    ensures |r| == |ms| && forall i | 0 <= i < |r| :: r[i] == Spec(c, ms[i])
  {
    if ms == [] then [] else [Spec(c, ms[0])] + ForMappings(c, ms[1..])
  }

  function ForContainers(cs: seq<Container>, ms: seq<Mapping>): seq<Spec>
  {
    if cs == [] then []
    else (if Eligible(cs[0]) then ForMappings(cs[0], ms) else []) + ForContainers(cs[1..], ms)
  }

  /** Every eligible container with every import, containers by name and ID. */
  function ImportSpecs(cs: seq<Container>, ms: seq<Mapping>): seq<Spec>
  {
    ForContainers(Sort(ContainerLe, cs), Filter(ms, IMPORT))
  }

  ghost predicate DistinctIds(cs: seq<Container>)
  {
    forall i, j | 0 <= i < j < |cs| :: cs[i].id != cs[j].id
  }

  ghost predicate DistinctNames(ms: seq<Mapping>)
  {
    forall i, j | 0 <= i < j < |ms| :: ms[i].name != ms[j].name
  }

  ghost predicate DistinctKeys(specs: seq<Spec>)
  {
    forall i, j | 0 <= i < j < |specs| :: KeyOf(specs[i]) != KeyOf(specs[j])
  }

  /** Mappings are distinct in name when they come from a valid set. */
  lemma ValidSetHasDistinctNames(ip: AddressParser, ms: seq<Mapping>)
    requires ValidSet(ip, ms)
    ensures DistinctNames(Filter(ms, IMPORT))
  {
    FilterKeepsValid(ip, ms, IMPORT);
  }

  lemma {:induction false} ForContainersExact(cs: seq<Container>, ms: seq<Mapping>, spec: Spec)
    ensures spec in ForContainers(cs, ms) <==> spec.container in cs && Eligible(spec.container) && spec.mapping in ms
  {
    if cs != [] {
      ForContainersExact(cs[1..], ms, spec);
      var first := ForMappings(cs[0], ms);
      if spec.mapping in ms && spec.container == cs[0] {
        var i :| 0 <= i < |ms| && ms[i] == spec.mapping;
        assert first[i] == spec;
      }
    }
  }

  lemma {:induction false} ForContainersDistinct(cs: seq<Container>, ms: seq<Mapping>)
    requires DistinctIds(cs) && DistinctNames(ms)
    ensures DistinctKeys(ForContainers(cs, ms))
  {
    if cs != [] {
      ForContainersDistinct(cs[1..], ms);
      var first := if Eligible(cs[0]) then ForMappings(cs[0], ms) else [];
      var rest := ForContainers(cs[1..], ms);
      forall j | 0 <= j < |rest| ensures rest[j].container.id != cs[0].id {
        assert rest[j] in rest;
        ForContainersExact(cs[1..], ms, rest[j]);
      }
    }
  }

  lemma DistinctIdsPermutation(a: seq<Container>, b: seq<Container>)
    requires multiset(a) == multiset(b) && DistinctIds(a)
    ensures DistinctIds(b)
  {
    forall i, j | 0 <= i < j < |b| ensures b[i].id != b[j].id {
      assert b[i] in multiset(b) && b[j] in multiset(b);
      assert b[i] in a && b[j] in a;
      var p :| 0 <= p < |a| && a[p] == b[i];
      var q :| 0 <= q < |a| && a[q] == b[j];
      if p == q {
        CountTwice(b, i, j);
        CountOnce(a, p);
      }
    }
  }

  /** Containers by name and ID, and for each the mappings by name. */
  ghost predicate InSpecOrder(specs: seq<Spec>)
  {
    forall i, j | 0 <= i < j < |specs| :: SpecBefore(specs[i], specs[j])
  }

  ghost predicate SpecBefore(a: Spec, b: Spec)
  {
    || StringLess(a.container.name, b.container.name)
    || (a.container.name == b.container.name && StringLess(a.container.id, b.container.id))
    || (a.container == b.container && StringLess(a.mapping.name, b.mapping.name))
  }

  lemma ContainerOrder(all: set<Container>)
    ensures TotalOn(ContainerLe, all) && TransitiveOn(ContainerLe, all)
  {
    forall x, y | x in all && y in all ensures ContainerLe(x, y) || ContainerLe(y, x) {
      StringLeTotal(x.name, y.name);
      StringLeTotal(x.id, y.id);
    }
    forall x, y, z | x in all && y in all && z in all && ContainerLe(x, y) && ContainerLe(y, z) ensures ContainerLe(x, z) {
      StringLeTotal(x.name, y.name);
      StringLeTotal(y.name, z.name);
      if x.name != y.name || y.name != z.name {
        StringLeTransitive(x.name, y.name, z.name);
      } else {
        StringLeTransitive(x.id, y.id, z.id);
      }
    }
  }

  ghost predicate ByName(ms: seq<Mapping>)
  {
    forall i, j | 0 <= i < j < |ms| :: StringLess(ms[i].name, ms[j].name)
  }

  lemma {:induction false} ForContainersOrdered(cs: seq<Container>, ms: seq<Mapping>)
    requires SortedBy(ContainerLe, cs) && DistinctIds(cs) && ByName(ms)
    ensures InSpecOrder(ForContainers(cs, ms))
  {
    hide StringLess;
    if cs != [] {
      ForContainersOrdered(cs[1..], ms);
      var first := if Eligible(cs[0]) then ForMappings(cs[0], ms) else [];
      var rest := ForContainers(cs[1..], ms);
      forall i, j | 0 <= i < |first| && 0 <= j < |rest| ensures SpecBefore(first[i], rest[j]) {
        assert rest[j] in rest;
        ForContainersExact(cs[1..], ms, rest[j]);
        var k :| 1 <= k < |cs| && cs[k] == rest[j].container;
        assert ContainerLe(cs[0], cs[k]) && cs[0].id != cs[k].id;
        LessOrEqual(cs[0], cs[k]);
      }
    }
  }

  lemma LessOrEqual(a: Container, b: Container)
    requires ContainerLe(a, b) && a.id != b.id
    ensures StringLess(a.name, b.name) || (a.name == b.name && StringLess(a.id, b.id))
  {
  }

  lemma ImportsByName(ms: seq<Mapping>)
    requires DistinctNames(Filter(ms, IMPORT))
    ensures ByName(Filter(ms, IMPORT))
  {
    var f := Filter(ms, IMPORT);
    SortMappingsSorts(Select(ms, (m: Mapping) => m.direction == IMPORT));
    FilterMembers(ms, IMPORT);
    assert SortedBy(MappingLe, f);
    hide Filter;
    forall i, j | 0 <= i < j < |f| ensures StringLess(f[i].name, f[j].name) {
      assert f[i] in f && f[j] in f && MappingLe(f[i], f[j]);
    }
  }

  /** The desired specs are exactly eligible containers times imports, each
      under a key of its own, in order. */
  lemma ImportSpecsExact(cs: seq<Container>, ms: seq<Mapping>)
    requires DistinctIds(cs) && DistinctNames(Filter(ms, IMPORT))
    ensures DistinctKeys(ImportSpecs(cs, ms)) && InSpecOrder(ImportSpecs(cs, ms))
    ensures forall spec :: spec in ImportSpecs(cs, ms) <==>
              && spec.container in cs && spec.container.running && spec.container.pid > 0 && !spec.container.portHelper
              && spec.mapping in ms && spec.mapping.direction == IMPORT
  {
    var sorted := Sort(ContainerLe, cs);
    var all := set c | c in cs;
    ContainerOrder(all);
    SortSorted(ContainerLe, cs, all);
    DistinctIdsPermutation(cs, sorted);
    ImportsByName(ms);
    ForContainersOrdered(sorted, Filter(ms, IMPORT));
    ForContainersDistinct(sorted, Filter(ms, IMPORT));
    FilterMembers(ms, IMPORT);
    hide Filter, Sort, InSpecOrder, DistinctKeys;
    forall spec ensures spec in ImportSpecs(cs, ms) <==>
              && spec.container in cs && spec.container.running && spec.container.pid > 0 && !spec.container.portHelper
              && spec.mapping in ms && spec.mapping.direction == IMPORT
    {
      ForContainersExact(sorted, Filter(ms, IMPORT), spec);
      assert spec.container in sorted <==> spec.container in multiset(sorted);
      assert spec.container in cs <==> spec.container in multiset(cs);
    }
  }

  /** Filtering the filtered mappings again, as importSpecs does, changes
      nothing. */
  lemma FilterTwice(ip: AddressParser, ms: seq<Mapping>)
    requires ValidSet(ip, ms)
    ensures Filter(Filter(ms, IMPORT), IMPORT) == Filter(ms, IMPORT)
  {
    var keep := (m: Mapping) => m.direction == IMPORT;
    var f := Filter(ms, IMPORT);
    FilterMembers(ms, IMPORT);
    SelectAll(f, keep);
    SelectKeepsValid(ip, ms, keep);
    SortPermutation(ip, Select(ms, keep), f);
  }

  lemma {:induction false} SelectAll(ms: seq<Mapping>, keep: Mapping -> bool)
    requires forall m | m in ms :: keep(m)
    ensures Select(ms, keep) == ms
  {
    if ms != [] {
      SelectAll(ms[1..], keep);
      assert ms == [ms[0]] + ms[1..];
    }
  }

  /** What a probe may answer without failing a transaction. */
  predicate Passes(o: Outside, spec: Spec)
  {
    o.probe(spec).Clear? || o.probe(spec).Gone? || (o.probe(spec).Conflict? && spec.container.desktop)
  }

  lemma ChosenConverges(specs: seq<Spec>, skipped: set<string>, o: Outside, started: map<Key, Active>,
                        chosen: map<Key, Active>, was: map<Key, Active>, closed: set<Proxy>, exited: set<Proxy>,
                        kept: set<Spec>)
    requires ChosenIn(specs, |specs|, skipped, started, chosen, was, closed, exited)
    requires forall j | 0 <= j < |specs| && specs[j].container.id !in skipped ::
               EntryFits(ChooseIn(was, closed, exited, specs[j], started), specs[j], o, was, kept, exited)
    ensures ConvergedTo(chosen, exited, specs, skipped, o, was, kept)
  {
    hide ChooseIn, EntryFits;
  }

  /** The exits during the second and third phase, and no others, happened. */
  ghost predicate ExitsFit(before: set<Proxy>, after: set<Proxy>, o: Outside, next: Proxy, swapped: bool)
  {
    && before <= after <= before + o.exitsBeforeStart + o.exitsBeforeSwap
    && (swapped ==> forall p | (p in o.exitsBeforeStart || p in o.exitsBeforeSwap) && p < next :: p in after)
  }

  /** Why a container receives no imports. */
  predicate SkipReason(o: Outside, mode: Mode, spec: Spec)
  {
    o.probe(spec).Gone? || (o.probe(spec).Conflict? && (spec.container.desktop || mode == Event))
  }

  /** The j-th spec is probed and its container skipped for what it answers. */
  ghost predicate SkipsAt(specs: seq<Spec>, kept: set<Spec>, mode: Mode, o: Outside, j: nat)
    requires j < |specs|
  {
    specs[j] !in kept && SkipReason(o, mode, specs[j])
  }

  /** The conflict of the j-th spec is the first reason to skip its workload, so
      an event sync stops it. */
  ghost predicate StopsAt(specs: seq<Spec>, kept: set<Spec>, o: Outside, j: nat)
    requires j < |specs|
  {
    && specs[j] !in kept && o.probe(specs[j]).Conflict? && !specs[j].container.desktop
    && forall i | 0 <= i < j && specs[i].container.id == specs[j].container.id :: !SkipsAt(specs, kept, Event, o, i)
  }

  ghost predicate SkippedUpTo(specs: seq<Spec>, kept: set<Spec>, mode: Mode, o: Outside, k: nat, id: string)
    requires k <= |specs|
  {
    exists j | 0 <= j < k :: specs[j].container.id == id && SkipsAt(specs, kept, mode, o, j)
  }

  ghost predicate StoppedUpTo(specs: seq<Spec>, kept: set<Spec>, o: Outside, k: nat, id: string)
    requires k <= |specs|
  {
    exists j | 0 <= j < k :: specs[j].container.id == id && StopsAt(specs, kept, o, j)
  }

  /** The probes of an event sync pass: none is broken, and every workload that
      has to be stopped can be. */
  ghost predicate EventPassesUpTo(specs: seq<Spec>, kept: set<Spec>, o: Outside, hasStopper: bool, k: nat)
    requires k <= |specs|
  {
    forall j | 0 <= j < k ::
      && (specs[j] !in kept ==> !o.probe(specs[j]).Broken?)
      && (StopsAt(specs, kept, o, j) ==> hasStopper && o.stop(specs[j].container.id))
  }

  ghost predicate EventPasses(specs: seq<Spec>, kept: set<Spec>, o: Outside, hasStopper: bool)
  {
    EventPassesUpTo(specs, kept, o, hasStopper, |specs|)
  }

  /** The warning that a successful call leaves for the j-th spec: none once it
      runs or its probe is clear, the reason when it was skipped for a
      conflict, and otherwise the one there was. */
  ghost predicate WarnedAt(before: map<Key, Warning>, after: map<Key, Warning>, specs: seq<Spec>, kept: set<Spec>,
                           mode: Mode, o: Outside, j: nat)
    requires j < |specs|
  {
    var spec := specs[j];
    var key := Key(spec.container.id, spec.mapping.name);
    if spec in kept || o.probe(spec).Clear? then key !in after
    else if o.probe(spec).Conflict? && spec.container.desktop then key in after && after[key] == DesktopConflict(spec)
    else if mode == Event && StopsAt(specs, kept, o, j) then key in after && after[key] == WorkloadStopped(spec)
    else SameWarning(before, after, key)
  }

  /** The warnings of mappings that are still desired. */
  ghost function Desired(warnings: map<Key, Warning>, ms: seq<Mapping>): map<Key, Warning>
  {
    map k | k in warnings && exists i | 0 <= i < |ms| :: ms[i].name == k.name :: warnings[k]
  }

  /** The failure of the j-th spec is forgotten once the spec runs, its workload is
      gone, or it is skipped for a conflict. */
  ghost predicate FailedAt(before: map<Key, Failure>, after: map<Key, Failure>, specs: seq<Spec>, kept: set<Spec>,
                           mode: Mode, o: Outside, j: nat)
    requires j < |specs|
  {
    var spec := specs[j];
    var key := Key(spec.container.id, spec.mapping.name);
    if || spec in kept || o.probe(spec).Gone?
       || (o.probe(spec).Conflict? && (spec.container.desktop || (mode == Event && StopsAt(specs, kept, o, j))))
    then key !in after
    else SameFailure(before, after, key)
  }

  ghost predicate SameFailure(before: map<Key, Failure>, after: map<Key, Failure>, key: Key)
  {
    (key in after <==> key in before) && (key in before && key in after ==> after[key] == before[key])
  }

  ghost predicate FailedUpTo(before: map<Key, Failure>, after: map<Key, Failure>, specs: seq<Spec>, kept: set<Spec>,
                             mode: Mode, o: Outside, k: nat)
    requires k <= |specs|
  {
    && (forall j | 0 <= j < k :: FailedAt(before, after, specs, kept, mode, o, j))
    && (forall key | forall j | 0 <= j < k :: KeyOf(specs[j]) != key :: SameFailure(before, after, key))
  }

  /** The failures after one round of the first phase that went well. */
  ghost function FailuresAfter(before: map<Key, Failure>, spec: Spec, kept: bool, mode: Mode, o: Outside,
                               skipped: set<string>): map<Key, Failure>
  {
    var stopped := mode == Event && spec.container.id !in skipped;
    if kept || o.probe(spec).Gone? || (o.probe(spec).Conflict? && (spec.container.desktop || stopped)) then
      before - {KeyOf(spec)}
    else before
  }

  lemma FailedNext(before: map<Key, Failure>, now: map<Key, Failure>, after: map<Key, Failure>, specs: seq<Spec>,
                   kept: set<Spec>, mode: Mode, o: Outside, k: nat, skipped: set<string>)
    requires k < |specs| && DistinctKeys(specs) && FailedUpTo(before, now, specs, kept, mode, o, k)
    requires after == FailuresAfter(now, specs[k], specs[k] in kept, mode, o, skipped)
    requires mode == Event ==> StopsWhenUnskipped(specs, kept, o, k, skipped)
    ensures FailedUpTo(before, after, specs, kept, mode, o, k + 1)
  {
    hide StopsAt;
    assert SameFailure(before, now, KeyOf(specs[k]));
    forall j | 0 <= j < k ensures FailedAt(before, after, specs, kept, mode, o, j) {
      assert FailedAt(before, now, specs, kept, mode, o, j);
    }
    forall key | forall j | 0 <= j < k + 1 :: KeyOf(specs[j]) != key ensures SameFailure(before, after, key) {
      assert SameFailure(before, now, key);
      assert KeyOf(specs[k]) != key;
    }
  }

  lemma FewerFailures(before: map<Key, Failure>, after: map<Key, Failure>, specs: seq<Spec>, kept: set<Spec>, mode: Mode,
                      o: Outside, k: nat)
    requires k <= |specs| && FailedUpTo(before, after, specs, kept, mode, o, k)
    ensures after.Keys <= before.Keys
  {
    hide StopsAt;
    forall key | key in after ensures key in before {
      if j :| 0 <= j < k && KeyOf(specs[j]) == key {
        assert FailedAt(before, after, specs, kept, mode, o, j);
      } else {
        assert SameFailure(before, after, key);
      }
    }
  }

  /** Starting proxies leaves the failures of skipped specs alone. */
  ghost predicate SkippedFailuresStay(specs: seq<Spec>, skipped: set<string>, before: map<Key, Failure>, now: map<Key, Failure>)
  {
    forall j | 0 <= j < |specs| && specs[j].container.id in skipped :: SameFailure(before, now, KeyOf(specs[j]))
  }

  ghost predicate SkippedFailures(before: map<Key, Failure>, after: map<Key, Failure>, specs: seq<Spec>, skipped: set<string>,
                                  kept: set<Spec>, mode: Mode, o: Outside)
  {
    forall j | 0 <= j < |specs| && specs[j].container.id in skipped :: FailedAt(before, after, specs, kept, mode, o, j)
  }

  /** No installed spec has a failure. */
  ghost predicate Unfailed(failures: map<Key, Failure>, specs: seq<Spec>, skipped: set<string>)
  {
    forall j | 0 <= j < |specs| && specs[j].container.id !in skipped ::
      Key(specs[j].container.id, specs[j].mapping.name) !in failures
  }

  /** What a successful second phase leaves of the failures. */
  ghost predicate StartFailures(before: map<Key, Failure>, after: map<Key, Failure>, specs: seq<Spec>, skipped: set<string>)
  {
    Unfailed(after, specs, skipped) && after.Keys <= before.Keys && SkippedFailuresStay(specs, skipped, before, after)
  }

  /** What the phases of a success leave of the failures. */
  ghost predicate PhaseFailures(before: map<Key, Failure>, after: map<Key, Failure>, specs: seq<Spec>, skipped: set<string>,
                                kept: set<Spec>, mode: Mode, o: Outside)
  {
    && Unfailed(after, specs, skipped) && after.Keys <= before.Keys
    && SkippedFailures(before, after, specs, skipped, kept, mode, o)
  }

  lemma PhaseFailuresFit(before: map<Key, Failure>, now: map<Key, Failure>, after: map<Key, Failure>, specs: seq<Spec>,
                         skipped: set<string>, kept: set<Spec>, mode: Mode, o: Outside)
    requires FailedUpTo(before, now, specs, kept, mode, o, |specs|) && StartFailures(now, after, specs, skipped)
    ensures PhaseFailures(before, after, specs, skipped, kept, mode, o)
  {
    hide FailedUpTo, SkippedFailures, SkippedFailuresStay, Unfailed;
    SkippedFailuresKept(before, now, after, specs, skipped, kept, mode, o);
    FewerFailures(before, now, specs, kept, mode, o, |specs|);
  }

  lemma SkippedFailuresKept(before: map<Key, Failure>, now: map<Key, Failure>, after: map<Key, Failure>, specs: seq<Spec>,
                            skipped: set<string>, kept: set<Spec>, mode: Mode, o: Outside)
    requires FailedUpTo(before, now, specs, kept, mode, o, |specs|) && SkippedFailuresStay(specs, skipped, now, after)
    ensures SkippedFailures(before, after, specs, skipped, kept, mode, o)
  {
    hide StopsAt;
    forall j | 0 <= j < |specs| && specs[j].container.id in skipped ensures FailedAt(before, after, specs, kept, mode, o, j) {
      assert FailedAt(before, now, specs, kept, mode, o, j) && SameFailure(now, after, KeyOf(specs[j]));
    }
  }

  lemma DroppedFailureStays(specs: seq<Spec>, skipped: set<string>, before: map<Key, Failure>, now: map<Key, Failure>, k: nat)
    requires k < |specs| && DistinctKeys(specs) && specs[k].container.id !in skipped
    requires SkippedFailuresStay(specs, skipped, before, now)
    ensures SkippedFailuresStay(specs, skipped, before, now - {KeyOf(specs[k])})
  {
    forall j | 0 <= j < |specs| && specs[j].container.id in skipped
      ensures SameFailure(before, now - {KeyOf(specs[k])}, KeyOf(specs[j]))
    {
      assert j != k && KeyOf(specs[j]) != KeyOf(specs[k]);
    }
  }

  /** The failures of desired specs. */
  ghost function DesiredFailures(failures: map<Key, Failure>, specs: seq<Spec>): map<Key, Failure>
  {
    map k | k in failures && exists i | 0 <= i < |specs| :: KeyOf(specs[i]) == k :: failures[k]
  }

  /** How many of the specs are probed. */
  ghost function ProbeCount(specs: seq<Spec>, kept: set<Spec>): nat
  {
    if specs == [] then 0
    else ProbeCount(specs[..|specs| - 1], kept) + (if specs[|specs| - 1] in kept then 0 else 1)
  }

  lemma {:induction false} NoProbes(specs: seq<Spec>, kept: set<Spec>)
    requires forall j | 0 <= j < |specs| :: specs[j] in kept
    ensures ProbeCount(specs, kept) == 0
  {
    if specs != [] { NoProbes(specs[..|specs| - 1], kept); }
  }

  ghost predicate SameWarning(before: map<Key, Warning>, after: map<Key, Warning>, key: Key)
  {
    (key in after <==> key in before) && (key in before && key in after ==> after[key] == before[key])
  }

  /** Each of the first k specs has its warning; other keys keep theirs. */
  ghost predicate WarnedUpTo(before: map<Key, Warning>, after: map<Key, Warning>, specs: seq<Spec>, kept: set<Spec>,
                             mode: Mode, o: Outside, k: nat)
    requires k <= |specs|
  {
    && (forall j | 0 <= j < k :: WarnedAt(before, after, specs, kept, mode, o, j))
    && (forall key | forall j | 0 <= j < k :: KeyOf(specs[j]) != key :: SameWarning(before, after, key))
  }

  /** The warnings after one round of the first phase that went well. */
  ghost function WarningsAfter(before: map<Key, Warning>, spec: Spec, kept: bool, mode: Mode, o: Outside,
                               skipped: set<string>): map<Key, Warning>
  {
    if kept || o.probe(spec).Clear? then before - {KeyOf(spec)}
    else if o.probe(spec).Conflict? && spec.container.desktop then before[KeyOf(spec) := DesktopConflict(spec)]
    else if o.probe(spec).Conflict? && mode == Event && spec.container.id !in skipped then
      before[KeyOf(spec) := WorkloadStopped(spec)]
    else before
  }

  lemma NothingWarned(before: map<Key, Warning>, specs: seq<Spec>, kept: set<Spec>, mode: Mode, o: Outside)
    ensures WarnedUpTo(before, before, specs, kept, mode, o, 0)
  {
  }

  lemma WarnedNext(before: map<Key, Warning>, now: map<Key, Warning>, after: map<Key, Warning>, specs: seq<Spec>,
                   kept: set<Spec>, mode: Mode, o: Outside, k: nat, skipped: set<string>)
    requires k < |specs| && DistinctKeys(specs) && WarnedUpTo(before, now, specs, kept, mode, o, k)
    requires after == WarningsAfter(now, specs[k], specs[k] in kept, mode, o, skipped)
    requires mode == Event ==> StopsWhenUnskipped(specs, kept, o, k, skipped)
    ensures WarnedUpTo(before, after, specs, kept, mode, o, k + 1)
  {
    hide StopsAt;
    assert SameWarning(before, now, KeyOf(specs[k]));
    forall j | 0 <= j < k ensures WarnedAt(before, after, specs, kept, mode, o, j) {
      assert WarnedAt(before, now, specs, kept, mode, o, j);
    }
    forall key | forall j | 0 <= j < k + 1 :: KeyOf(specs[j]) != key ensures SameWarning(before, after, key) {
      assert SameWarning(before, now, key);
      assert KeyOf(specs[k]) != key;
    }
  }

  ghost predicate StopsWhenUnskipped(specs: seq<Spec>, kept: set<Spec>, o: Outside, k: nat, skipped: set<string>)
    requires k < |specs|
  {
    StopsAt(specs, kept, o, k) <==>
    specs[k] !in kept && o.probe(specs[k]).Conflict? && !specs[k].container.desktop && specs[k].container.id !in skipped
  }

  /** A container is skipped once one of its specs was. */
  lemma StopsNow(specs: seq<Spec>, kept: set<Spec>, mode: Mode, o: Outside, k: nat, skipped: set<string>)
    requires k < |specs| && forall id :: id in skipped <==> SkippedUpTo(specs, kept, mode, o, k, id)
    ensures mode == Event ==> StopsWhenUnskipped(specs, kept, o, k, skipped)
  {
    hide SkipReason;
    var id := specs[k].container.id;
    assert SkippedUpTo(specs, kept, mode, o, k, id) <==> id in skipped;
  }

  lemma SkippedNext(specs: seq<Spec>, kept: set<Spec>, mode: Mode, o: Outside, k: nat, skipped: set<string>)
    requires k < |specs| && forall id :: id in skipped <==> SkippedUpTo(specs, kept, mode, o, k, id)
    ensures forall id :: SkippedUpTo(specs, kept, mode, o, k + 1, id) <==>
                         id in skipped || (id == specs[k].container.id && SkipsAt(specs, kept, mode, o, k))
    ensures forall id | SkippedUpTo(specs, kept, mode, o, k + 1, id) :: SkippedUpTo(specs, kept, mode, o, |specs|, id)
  {
    hide SkipsAt;
    forall id ensures SkippedUpTo(specs, kept, mode, o, k + 1, id) <==>
                      id in skipped || (id == specs[k].container.id && SkipsAt(specs, kept, mode, o, k))
    {
      assert SkippedUpTo(specs, kept, mode, o, k, id) <==> id in skipped;
    }
  }

  /** The new stops are exactly those of the first k specs, each once. */
  ghost predicate StopsIn(before: seq<string>, stops: seq<string>, specs: seq<Spec>, kept: set<Spec>, o: Outside, k: nat)
    requires k <= |specs|
  {
    && IsPrefix(before, stops)
    && (forall id :: id in stops[|before|..] <==> StoppedUpTo(specs, kept, o, k, id))
    && (forall i, j | |before| <= i < j < |stops| :: stops[i] != stops[j])
  }

  /** A workload stopped now was not stopped before. */
  lemma StopsNext(specs: seq<Spec>, kept: set<Spec>, o: Outside, k: nat, before: seq<string>, stops: seq<string>,
                  after: seq<string>)
    requires k < |specs| && StopsIn(before, stops, specs, kept, o, k)
    requires after == if StopsAt(specs, kept, o, k) then stops + [specs[k].container.id] else stops
    ensures StopsIn(before, after, specs, kept, o, k + 1)
  {
    var id := specs[k].container.id;
    if StopsAt(specs, kept, o, k) {
      assert !StoppedUpTo(specs, kept, o, k, id);
      assert after[|before|..] == stops[|before|..] + [id];
      forall i | |before| <= i < |stops| ensures stops[i] != id {
        assert stops[i] == stops[|before|..][i - |before|];
        assert stops[i] in stops[|before|..];
      }
    }
    hide StopsAt, SkipReason;
    forall other ensures StoppedUpTo(specs, kept, o, k + 1, other) <==>
                         StoppedUpTo(specs, kept, o, k, other) || (other == id && StopsAt(specs, kept, o, k)) {}
  }

  /** The skipped containers of one call have a reason; after the probes all
      that have one are skipped. */
  ghost predicate SkippedFit(skipped: set<string>, specs: seq<Spec>, kept: set<Spec>, mode: Mode, o: Outside, ok: bool)
  {
    && (forall id | id in skipped :: SkippedUpTo(specs, kept, mode, o, |specs|, id))
    && (ok ==> forall id | SkippedUpTo(specs, kept, mode, o, |specs|, id) :: id in skipped)
  }

  /** The stops of one call: none in a transaction; otherwise of workloads whose
      conflict is their first reason to be skipped, each once, and all of them
      after a success. */
  ghost predicate StopsFit(before: seq<string>, stops: seq<string>, specs: seq<Spec>, kept: set<Spec>, mode: Mode, o: Outside,
                           ok: bool)
  {
    && IsPrefix(before, stops)
    && (mode == Transaction ==> stops == before)
    && (forall i, j | |before| <= i < j < |stops| :: stops[i] != stops[j])
    && (forall id | id in stops[|before|..] :: StoppedUpTo(specs, kept, o, |specs|, id))
    && (ok && mode == Event ==> forall id | StoppedUpTo(specs, kept, o, |specs|, id) :: id in stops[|before|..])
  }

  /** What probing leaves besides failures. */
  datatype Notes = Notes(stops: seq<string>, probes: nat, warnings: map<Key, Warning>)

  /** The probes of one call, relative to the specs that run at their time: when
      they pass, what is skipped, stopped and warned of, and how many there
      are. */
  ghost predicate ProbesFit(before: Notes, after: Notes, specs: seq<Spec>, kept: set<Spec>, mode: Mode, o: Outside,
                            hasStopper: bool, skipped: set<string>, passed: bool)
  {
    && (mode == Transaction ==> (passed <==> forall spec | spec in specs :: spec in kept || Passes(o, spec)))
    && (mode == Event ==> (passed <==> EventPasses(specs, kept, o, hasStopper)))
    && SkippedFit(skipped, specs, kept, mode, o, passed)
    && StopsFit(before.stops, after.stops, specs, kept, mode, o, passed)
    && (passed ==>
          && WarnedUpTo(before.warnings, after.warnings, specs, kept, mode, o, |specs|)
          && after.probes == before.probes + ProbeCount(specs, kept))
  }

  lemma StopsOfPrefixFit(before: seq<string>, stops: seq<string>, specs: seq<Spec>, kept: set<Spec>, mode: Mode, o: Outside,
                         k: nat)
    requires k <= |specs| && mode == Event && StopsIn(before, stops, specs, kept, o, k)
    ensures StopsFit(before, stops, specs, kept, mode, o, k == |specs|)
  {
    hide StopsAt;
    forall id | id in stops[|before|..] ensures StoppedUpTo(specs, kept, o, |specs|, id) {
      assert StoppedUpTo(specs, kept, o, k, id);
    }
  }

  /** One round of the first phase: what it makes of the skipped containers,
      the stops and the warnings. */
  ghost predicate RoundOf(spec: Spec, kept: bool, mode: Mode, o: Outside, hasStopper: bool,
                          skipped: set<string>, stops: seq<string>, warnings: map<Key, Warning>,
                          ok: bool, skipped': set<string>, stops': seq<string>, warnings': map<Key, Warning>)
  {
    var skips := !kept && SkipReason(o, mode, spec);
    var conflict := !kept && o.probe(spec).Conflict? && !spec.container.desktop && spec.container.id !in skipped;
    && (skipped' == skipped || (skips && skipped' == skipped + {spec.container.id}))
    && (ok ==> skipped' == if skips then skipped + {spec.container.id} else skipped)
    && (mode == Transaction ==> (ok <==> kept || Passes(o, spec)) && stops' == stops)
    && (mode == Event ==>
          && (ok <==> (kept || !o.probe(spec).Broken?) && (conflict ==> hasStopper && o.stop(spec.container.id)))
          && stops' == if conflict && hasStopper then stops + [spec.container.id] else stops)
    && (ok ==> warnings' == WarningsAfter(warnings, spec, kept, mode, o, skipped))
  }

  /** What the first k rounds come to. */
  ghost predicate ProbedTo(specs: seq<Spec>, kept: set<Spec>, mode: Mode, o: Outside, hasStopper: bool, k: nat,
                           stopsBefore: seq<string>, warningsBefore: map<Key, Warning>,
                           skipped: set<string>, stops: seq<string>, warnings: map<Key, Warning>)
    requires k <= |specs|
  {
    && (forall id :: id in skipped <==> SkippedUpTo(specs, kept, mode, o, k, id))
    && (mode == Transaction ==> stops == stopsBefore && forall j | 0 <= j < k :: specs[j] in kept || Passes(o, specs[j]))
    && (mode == Event ==>
          EventPassesUpTo(specs, kept, o, hasStopper, k) && StopsIn(stopsBefore, stops, specs, kept, o, k))
    && WarnedUpTo(warningsBefore, warnings, specs, kept, mode, o, k)
  }

  lemma NothingProbed(specs: seq<Spec>, kept: set<Spec>, mode: Mode, o: Outside, hasStopper: bool,
                      stops: seq<string>, warnings: map<Key, Warning>)
    ensures ProbedTo(specs, kept, mode, o, hasStopper, 0, stops, warnings, {}, stops, warnings)
  {
    NothingWarned(warnings, specs, kept, mode, o);
    hide WarnedUpTo;
  }

  /** A round that goes well. */
  lemma RoundGoesOn(specs: seq<Spec>, kept: set<Spec>, mode: Mode, o: Outside, hasStopper: bool, k: nat,
                    stopsBefore: seq<string>, warningsBefore: map<Key, Warning>,
                    skipped: set<string>, stops: seq<string>, warnings: map<Key, Warning>,
                    skipped': set<string>, stops': seq<string>, warnings': map<Key, Warning>)
    requires k < |specs| && DistinctKeys(specs)
    requires ProbedTo(specs, kept, mode, o, hasStopper, k, stopsBefore, warningsBefore, skipped, stops, warnings)
    requires RoundOf(specs[k], specs[k] in kept, mode, o, hasStopper, skipped, stops, warnings, true, skipped', stops', warnings')
    ensures ProbedTo(specs, kept, mode, o, hasStopper, k + 1, stopsBefore, warningsBefore, skipped', stops', warnings')
  {
    StopsNow(specs, kept, mode, o, k, skipped);
    SkippedNext(specs, kept, mode, o, k, skipped);
    WarnedNext(warningsBefore, warnings, warnings', specs, kept, mode, o, k, skipped);
    hide WarnedUpTo, SkippedUpTo, StopsAt, WarningsAfter, SkipReason, Passes;
    if mode == Event {
      StopsNext(specs, kept, o, k, stopsBefore, stops, stops');
    }
    hide StopsIn;
  }

  lemma NothingFailed(before: map<Key, Failure>, specs: seq<Spec>, kept: set<Spec>, mode: Mode, o: Outside)
    ensures FailedUpTo(before, before, specs, kept, mode, o, 0)
  {
  }

  lemma RoundFailures(specs: seq<Spec>, kept: set<Spec>, mode: Mode, o: Outside, hasStopper: bool, k: nat,
                      stopsBefore: seq<string>, warningsBefore: map<Key, Warning>,
                      skipped: set<string>, stops: seq<string>, warnings: map<Key, Warning>,
                      before: map<Key, Failure>, now: map<Key, Failure>, after: map<Key, Failure>)
    requires k < |specs| && DistinctKeys(specs)
    requires ProbedTo(specs, kept, mode, o, hasStopper, k, stopsBefore, warningsBefore, skipped, stops, warnings)
    requires FailedUpTo(before, now, specs, kept, mode, o, k)
    requires after == FailuresAfter(now, specs[k], specs[k] in kept, mode, o, skipped)
    ensures FailedUpTo(before, after, specs, kept, mode, o, k + 1)
  {
    hide FailedUpTo, FailuresAfter, WarnedUpTo, StopsIn;
    StopsNow(specs, kept, mode, o, k, skipped);
    FailedNext(before, now, after, specs, kept, mode, o, k, skipped);
  }

  /** A round that fails the phase. */
  lemma RoundFails(specs: seq<Spec>, kept: set<Spec>, mode: Mode, o: Outside, hasStopper: bool, k: nat,
                   stopsBefore: seq<string>, warningsBefore: map<Key, Warning>,
                   skipped: set<string>, stops: seq<string>, warnings: map<Key, Warning>,
                   skipped': set<string>, stops': seq<string>, warnings': map<Key, Warning>)
    requires k < |specs|
    requires ProbedTo(specs, kept, mode, o, hasStopper, k, stopsBefore, warningsBefore, skipped, stops, warnings)
    requires RoundOf(specs[k], specs[k] in kept, mode, o, hasStopper, skipped, stops, warnings, false, skipped', stops', warnings')
    ensures SkippedFit(skipped', specs, kept, mode, o, false)
    ensures StopsFit(stopsBefore, stops', specs, kept, mode, o, false)
    ensures mode == Transaction ==> exists spec :: spec in specs && spec !in kept && !Passes(o, spec)
    ensures mode == Event ==> !EventPasses(specs, kept, o, hasStopper)
  {
    StopsNow(specs, kept, mode, o, k, skipped);
    SkippedNext(specs, kept, mode, o, k, skipped);
    hide WarnedUpTo, SkippedUpTo, StopsAt, WarningsAfter, SkipReason, Passes;
    if mode == Event {
      if stops' == stops {
        StopsOfPrefixFit(stopsBefore, stops, specs, kept, mode, o, k);
      } else {
        StopsNext(specs, kept, o, k, stopsBefore, stops, stops');
        StopsOfPrefixFit(stopsBefore, stops', specs, kept, mode, o, k + 1);
      }
    }
    assert mode == Transaction ==> specs[k] in specs;
  }

  lemma AllProbed(specs: seq<Spec>, kept: set<Spec>, mode: Mode, o: Outside, hasStopper: bool,
                  stopsBefore: seq<string>, warningsBefore: map<Key, Warning>,
                  skipped: set<string>, stops: seq<string>, warnings: map<Key, Warning>)
    requires ProbedTo(specs, kept, mode, o, hasStopper, |specs|, stopsBefore, warningsBefore, skipped, stops, warnings)
    ensures SkippedFit(skipped, specs, kept, mode, o, true)
    ensures StopsFit(stopsBefore, stops, specs, kept, mode, o, true)
    ensures mode == Transaction ==> forall spec | spec in specs :: spec in kept || Passes(o, spec)
    ensures mode == Event ==> EventPasses(specs, kept, o, hasStopper)
    ensures WarnedUpTo(warningsBefore, warnings, specs, kept, mode, o, |specs|)
    ensures (forall j | 0 <= j < |specs| :: specs[j] in kept) ==> skipped == {} && stops == stopsBefore
  {
    hide WarnedUpTo, Passes;
    if mode == Event {
      StopsOfPrefixFit(stopsBefore, stops, specs, kept, mode, o, |specs|);
      if forall j | 0 <= j < |specs| :: specs[j] in kept {
        NoStops(stopsBefore, stops, specs, kept, o);
      }
    }
    if forall j | 0 <= j < |specs| :: specs[j] in kept {
      forall id ensures id !in skipped { assert !SkippedUpTo(specs, kept, mode, o, |specs|, id); }
    }
  }

  lemma NoStops(before: seq<string>, stops: seq<string>, specs: seq<Spec>, kept: set<Spec>, o: Outside)
    requires StopsIn(before, stops, specs, kept, o, |specs|) && forall j | 0 <= j < |specs| :: specs[j] in kept
    ensures stops == before
  {
    assert forall id :: !StoppedUpTo(specs, kept, o, |specs|, id);
    var added := stops[|before|..];
    HasMember(added);
    assert stops == stops[..|before|] + added;
  }

  ghost predicate IsPrefix<T>(a: seq<T>, b: seq<T>)
  {
    |a| <= |b| && b[..|a|] == a
  }

  predicate RunningIn(closed: set<Proxy>, exited: set<Proxy>, proxy: Option<Proxy>)
  {
    proxy.Some? && proxy.value !in closed && proxy.value !in exited
  }

  /** The spec has an equal entry whose proxy runs. */
  predicate KeptIn(active: map<Key, Active>, closed: set<Proxy>, exited: set<Proxy>, spec: Spec)
  {
    var key := KeyOf(spec);
    key in active && EqualSpec(active[key].spec, spec) && RunningIn(closed, exited, active[key].proxy)
  }

  function ChooseIn(active: map<Key, Active>, closed: set<Proxy>, exited: set<Proxy>, spec: Spec,
                    started: map<Key, Active>): Active
  {
    var key := KeyOf(spec);
    if KeptIn(active, closed, exited, spec) then active[key] else if key in started then started[key] else ZERO
  }

  /** The entries chosen for the first k specs. */
  ghost predicate ChosenIn(specs: seq<Spec>, k: nat, skipped: set<string>, started: map<Key, Active>,
                           chosen: map<Key, Active>, active: map<Key, Active>, closed: set<Proxy>, exited: set<Proxy>)
    requires k <= |specs|
  {
    && (forall key | key in chosen :: exists j | 0 <= j < k :: KeyOf(specs[j]) == key && specs[j].container.id !in skipped)
    && (forall j | 0 <= j < k && specs[j].container.id !in skipped ::
          KeyOf(specs[j]) in chosen && chosen[KeyOf(specs[j])] == ChooseIn(active, closed, exited, specs[j], started))
  }

  ghost predicate HasEntry(entries: map<Key, Active>, p: Proxy)
  {
    exists key | key in entries :: entries[key].proxy == Some(p)
  }

  /** The proxy of the spec was kept by the second phase and is gone in the
      third. */
  ghost predicate Vanished(spec: Spec, o: Outside, was: map<Key, Active>, kept: set<Spec>)
  {
    && spec in kept && KeyOf(spec) in was && was[KeyOf(spec)].proxy.Some?
    && was[KeyOf(spec)].proxy.value in o.exitsBeforeSwap
  }

  /** A proxy for this spec serves the mapping to the container, as long as the
      process is the same. */
  ghost predicate Reaches(served: Spec, c: Container, m: Mapping)
  {
    && served.container.id == c.id && served.container.pid == c.pid
    && served.mapping.name == m.name
    && served.mapping.sourceAddress == m.sourceAddress && served.mapping.sourcePort == m.sourcePort
    && served.mapping.targetPort == m.targetPort
  }

  /** The entry is empty exactly when the proxy vanished; otherwise it reaches
      the spec, runs unless it exited just now, and is the old one if kept, else
      one with a proxy of its own. */
  ghost predicate EntryFits(entry: Active, spec: Spec, o: Outside, was: map<Key, Active>, kept: set<Spec>, exited: set<Proxy>)
  {
    && (entry == ZERO <==> Vanished(spec, o, was, kept))
    && (entry != ZERO ==> Reaches(entry.spec, spec.container, spec.mapping) && entry.proxy.Some?
                          && (entry.proxy.value !in exited || entry.proxy.value in o.exitsBeforeSwap))
    && (entry != ZERO && spec in kept ==> KeyOf(spec) in was && entry == was[KeyOf(spec)])
    && (entry != ZERO && spec !in kept ==> !HasEntry(was, entry.proxy.value))
  }

  /** After a success every entry belongs to a spec that is not skipped and
      every such spec has its entry. */
  ghost predicate ConvergedTo(active: map<Key, Active>, exited: set<Proxy>, specs: seq<Spec>, skipped: set<string>,
                              o: Outside, was: map<Key, Active>, kept: set<Spec>)
  {
    && (forall key | key in active :: exists j | 0 <= j < |specs| ::
          KeyOf(specs[j]) == key && specs[j].container.id !in skipped)
    && (forall j | 0 <= j < |specs| && specs[j].container.id !in skipped ::
          KeyOf(specs[j]) in active
          && EntryFits(active[KeyOf(specs[j])], specs[j], o, was, kept, exited))
  }

  lemma ChoiceFits(spec: Spec, o: Outside, active: map<Key, Active>, closed: set<Proxy>, exited: set<Proxy>,
                   later: set<Proxy>, started: map<Key, Active>, kept: set<Spec>, lo: Proxy, next: Proxy)
    requires spec in kept <==> KeptIn(active, closed, exited, spec)
    requires KeptIn(active, closed, exited, spec) ==> KeyOf(spec) !in started && active[KeyOf(spec)].proxy.value < next
    requires !KeptIn(active, closed, exited, spec) ==>
               KeyOf(spec) in started && started[KeyOf(spec)].spec == spec && started[KeyOf(spec)].proxy.Some?
               && lo <= started[KeyOf(spec)].proxy.value < next
    requires forall key | key in active && active[key].proxy.Some? :: active[key].proxy.value < lo
    requires forall p | p in exited :: p < lo
    requires forall p :: p in later <==> p in exited || (p in o.exitsBeforeSwap && p < next)
    ensures EntryFits(ChooseIn(active, closed, later, spec, started), spec, o, active, kept, later)
  {
  }

  // ---- the ledger -----------------------------------------------------------

  /** A proxy is open only when an entry holds it, when it was replaced under
      an unchanged key, or when it was just started (`extra`). */
  ghost predicate LedgerOf(active: map<Key, Active>, next: Proxy, closed: set<Proxy>, exited: set<Proxy>,
                           leaked: set<Proxy>, extra: set<Proxy>)
  {
    && (forall key | key in active && active[key].proxy.Some? ::
          && active[key].proxy.value < next && active[key].proxy.value !in closed
          && active[key].proxy.value !in leaked && active[key].proxy.value !in extra)
    && (forall a, b | a in active && b in active && a != b && active[a].proxy.Some? ::
          active[a].proxy != active[b].proxy)
    && (forall p | p in leaked || p in closed || p in exited || p in extra :: p < next)
    && leaked !! closed && extra !! leaked && extra !! closed
    && (forall p: Proxy | p < next && p !in closed && p !in exited ::
          HasEntry(active, p) || p in leaked || p in extra)
  }

  lemma CloseExtraKeepsLedger(active: map<Key, Active>, next: Proxy, closed: set<Proxy>, exited: set<Proxy>,
                              leaked: set<Proxy>, extra: set<Proxy>)
    requires LedgerOf(active, next, closed, exited, leaked, extra)
    ensures LedgerOf(active, next, closed + extra, exited, leaked, {})
  {
  }

  /** Dropping an entry whose proxy exited, and closing that proxy, keeps the
      ledger. */
  lemma DropKeepsLedger(active: map<Key, Active>, next: Proxy, closed: set<Proxy>, exited: set<Proxy>,
                        leaked: set<Proxy>, key: Key)
    requires LedgerOf(active, next, closed, exited, leaked, {}) && key in active
    requires active[key].proxy.Some? && active[key].proxy.value in exited
    ensures LedgerOf(active - {key}, next, closed + {active[key].proxy.value}, exited, leaked, {})
  {
    forall p: Proxy | p < next && p !in closed && p != active[key].proxy.value && p !in exited
      ensures HasEntry(active - {key}, p) || p in leaked
    {
      if HasEntry(active, p) {
        var k :| k in active && active[k].proxy == Some(p);
        assert k in active - {key};
      }
    }
  }

  /** The replaced proxies that still run. */
  ghost function Replaced(active: map<Key, Active>, chosen: map<Key, Active>, exited: set<Proxy>): set<Proxy>
  {
    set key | key in active && key in chosen && active[key].proxy != chosen[key].proxy
              && active[key].proxy.Some? && active[key].proxy.value !in exited :: active[key].proxy.value
  }

  /** The proxies of keys that are gone. */
  ghost function Dropped(active: map<Key, Active>, chosen: map<Key, Active>): set<Proxy>
  {
    set key | key in active && key !in chosen && active[key].proxy.Some? :: active[key].proxy.value
  }

  /** Swapping the entries keeps the ledger: what is neither installed nor
      closed is leaked. */
  lemma SwapKeepsLedger(active: map<Key, Active>, chosen: map<Key, Active>, next: Proxy, closed: set<Proxy>,
                        exited: set<Proxy>, leaked: set<Proxy>, extra: set<Proxy>)
    requires LedgerOf(active, next, closed, exited, leaked, extra)
    requires forall key | key in chosen && chosen[key].proxy.Some? ::
               (key in active && chosen[key].proxy == active[key].proxy) || chosen[key].proxy.value in extra
    requires forall a, b | a in chosen && b in chosen && a != b && chosen[a].proxy.Some? && chosen[a].proxy.value in extra ::
               chosen[a].proxy != chosen[b].proxy
    requires forall p | p in extra :: HasEntry(chosen, p)
    ensures LedgerOf(chosen, next, closed + Dropped(active, chosen), exited, leaked + Replaced(active, chosen, exited), {})
  {
    var closed', leaked' := closed + Dropped(active, chosen), leaked + Replaced(active, chosen, exited);
    forall p: Proxy | p < next && p !in closed' && p !in exited ensures HasEntry(chosen, p) || p in leaked' {
      if HasEntry(active, p) {
        var key :| key in active && active[key].proxy == Some(p);
        if key in chosen && chosen[key].proxy != active[key].proxy {
          assert p in Replaced(active, chosen, exited);
        }
      }
    }
  }

  // ---- leaks ----------------------------------------------------------------

  /** The key of a running proxy is desired with another spec: a changed process
      ID, source or target. */
  ghost predicate Outdated(live: map<Key, Active>, specs: seq<Spec>, skipped: set<string>, key: Key, p: Proxy)
  {
    && key in live && live[key].proxy == Some(p)
    && exists j | 0 <= j < |specs| ::
         KeyOf(specs[j]) == key && specs[j].container.id !in skipped && !Reaches(live[key].spec, specs[j].container, specs[j].mapping)
  }

  /** The leaked proxies are exactly the outdated ones that still run. */
  ghost predicate LeaksExactly(live: map<Key, Active>, specs: seq<Spec>, skipped: set<string>, exited: set<Proxy>,
                               leaks: set<Proxy>)
  {
    forall p: Proxy :: p in leaks <==> p !in exited && exists key :: Outdated(live, specs, skipped, key, p)
  }

  /** The specs kept until the swap, in terms of the running entries. */
  ghost predicate KeptFits(kept: set<Spec>, live: map<Key, Active>, specs: seq<Spec>, o: Outside)
  {
    forall j | 0 <= j < |specs| ::
      specs[j] in kept <==>
      && KeyOf(specs[j]) in live && Reaches(live[KeyOf(specs[j])].spec, specs[j].container, specs[j].mapping)
      && live[KeyOf(specs[j])].proxy.Some?
      && live[KeyOf(specs[j])].proxy.value !in o.exitsBeforeProbe
      && live[KeyOf(specs[j])].proxy.value !in o.exitsBeforeStart
  }

  /** The exits of one call are among the exited proxies. */
  ghost predicate ExitsCounted(live: map<Key, Active>, o: Outside, exited: set<Proxy>)
  {
    forall key | key in live && live[key].proxy.Some? && live[key].proxy.value !in exited ::
      && live[key].proxy.value !in o.exitsBeforeProbe
      && live[key].proxy.value !in o.exitsBeforeStart
      && live[key].proxy.value !in o.exitsBeforeSwap
  }

  lemma ReplacedExactly(active: map<Key, Active>, exited: set<Proxy>, specs: seq<Spec>, skipped: set<string>, o: Outside,
                        live: map<Key, Active>, kept: set<Spec>, key: Key)
    requires ConvergedTo(active, exited, specs, skipped, o, live, kept) && DistinctKeys(specs)
    requires KeptFits(kept, live, specs, o) && ExitsCounted(live, o, exited)
    requires key in live && live[key].proxy.Some? && live[key].proxy.value !in exited
    ensures (key in active && active[key].proxy != live[key].proxy)
            <==> Outdated(live, specs, skipped, key, live[key].proxy.value)
  {
    hide EqualSpec;
    if key in active {
      var j :| 0 <= j < |specs| && KeyOf(specs[j]) == key && specs[j].container.id !in skipped;
      assert EntryFits(active[key], specs[j], o, live, kept, exited);
    }
  }

  lemma ReplacedAreLeaks(active: map<Key, Active>, exited: set<Proxy>, specs: seq<Spec>, skipped: set<string>, o: Outside,
                         live: map<Key, Active>, kept: set<Spec>)
    requires ConvergedTo(active, exited, specs, skipped, o, live, kept) && DistinctKeys(specs)
    requires KeptFits(kept, live, specs, o) && ExitsCounted(live, o, exited)
    ensures LeaksExactly(live, specs, skipped, exited, Replaced(live, active, exited))
  {
    hide ConvergedTo, KeptFits, ExitsCounted, Outdated;
    forall p: Proxy
      ensures p in Replaced(live, active, exited) <==> p !in exited && exists key :: Outdated(live, specs, skipped, key, p)
    {
      forall key | key in live && live[key].proxy == Some(p) && p !in exited
        ensures (key in active && active[key].proxy != live[key].proxy) <==> Outdated(live, specs, skipped, key, p)
      {
        ReplacedExactly(active, exited, specs, skipped, o, live, kept, key);
      }
      forall key | Outdated(live, specs, skipped, key, p) ensures key in live && live[key].proxy == Some(p) {
        OutdatedLives(live, specs, skipped, key, p);
      }
    }
  }

  lemma OutdatedLives(live: map<Key, Active>, specs: seq<Spec>, skipped: set<string>, key: Key, p: Proxy)
    requires Outdated(live, specs, skipped, key, p)
    ensures key in live && live[key].proxy == Some(p)
  {
  }

  /** Every entry that was started and closed again has its failure; `keys` are
      still to come. */
  ghost predicate RollingBack(started: map<Key, Active>, keys: set<Key>, before: map<Key, Failure>, now: map<Key, Failure>)
  {
    && (forall key | key in started && key !in keys :: key in now && now[key] == RolledBack(started[key].spec))
    && (forall key | key !in started ::
          (key in now <==> key in before) && (key in now && key in before ==> now[key] == before[key]))
  }

  lemma NothingRolledBack(started: map<Key, Active>, failures: map<Key, Failure>)
    ensures RollingBack(started, started.Keys, failures, failures)
  {
  }

  ghost function ProxiesOf(started: map<Key, Active>, keys: set<Key>): set<Proxy>
  {
    set key | key in keys && key in started && started[key].proxy.Some? :: started[key].proxy.value
  }

  lemma AllProxies(started: map<Key, Active>, proxies: set<Proxy>)
    requires forall k | k in started :: started[k].proxy.Some? && started[k].proxy.value in proxies
    requires forall p | p in proxies :: HasEntry(started, p)
    ensures ProxiesOf(started, started.Keys) == proxies
  {
  }

  lemma ProxiesNext(started: map<Key, Active>, keys: set<Key>, key: Key)
    requires key in keys && key in started && started[key].proxy.Some?
    ensures ProxiesOf(started, keys) == {started[key].proxy.value} + ProxiesOf(started, keys - {key})
  {
  }

  lemma NoProxies(started: map<Key, Active>)
    ensures ProxiesOf(started, {}) == {}
  {
  }

  lemma RollBackNext(started: map<Key, Active>, keys: set<Key>, before: map<Key, Failure>, now: map<Key, Failure>, key: Key)
    requires RollingBack(started, keys, before, now) && key in started
    ensures RollingBack(started, keys - {key}, before, now[key := RolledBack(started[key].spec)])
  {
  }

  // ---- the reconciler -------------------------------------------------------

  class ImportReconciler {
    const hasFactory: bool
    const hasStopper: bool
    var active: map<Key, Active>
    var desired: seq<Mapping>
    var warnings: map<Key, Warning>
    var failures: map<Key, Failure>

    // The outside: proxies are numbered in the order they were started.
    var next: Proxy
    var closed: set<Proxy>
    var exited: set<Proxy>
    var probes: nat
    var stops: seq<string>
    /** Proxies replaced under an unchanged key, which nobody closes. */
    ghost var leaked: set<Proxy>

    constructor (hasFactory: bool, hasStopper: bool)
      ensures Ledger() && NoZero() && active == map[] && desired == [] && leaked == {} && next == 0
      ensures this.hasFactory == hasFactory && this.hasStopper == hasStopper
    {
      this.hasFactory, this.hasStopper := hasFactory, hasStopper;
      active, desired, warnings, failures := map[], [], map[], map[];
      next, closed, exited, probes, stops := 0, {}, {}, 0, [];
      leaked := {};
    }

    predicate Running(proxy: Option<Proxy>)
      reads this`closed, this`exited
    {
      RunningIn(closed, exited, proxy)
    }

    predicate Kept(spec: Spec)
      reads this`active, this`closed, this`exited
    {
      KeptIn(active, closed, exited, spec)
    }

    /** Started and neither closed nor exited. */
    ghost predicate Open(p: Proxy)
      reads this`next, this`closed, this`exited
    {
      p < next && p !in closed && p !in exited
    }

    ghost predicate LedgerPlus(extra: set<Proxy>)
      reads this`active, this`next, this`closed, this`exited, this`leaked
    {
      LedgerOf(active, next, closed, exited, leaked, extra)
    }

    ghost predicate Ledger()
      reads this`active, this`next, this`closed, this`exited, this`leaked
    {
      LedgerPlus({})
    }

    /** No entry lacks its proxy; closing such an entry would panic. */
    ghost predicate NoZero()
      reads this`active
    {
      forall key | key in active :: active[key].proxy.Some?
    }

    /** Some proxies exit; the environment does this at any time. */
    method Exit(proxies: set<Proxy>, ghost extra: set<Proxy>)
      requires LedgerPlus(extra)
      modifies this`exited
      ensures LedgerPlus(extra) && exited == old(exited) + (set p | p in proxies && p < next)
    {
      exited := exited + (set p | p in proxies && p < next);
    }

    method CloseProxy(p: Proxy)
      modifies this`closed
      ensures closed == old(closed) + {p}
    {
      closed := closed + {p};
    }

    /** Drops warnings whose mapping is no longer desired. */
    method PruneWarnings(ms: seq<Mapping>)
      modifies this`warnings
      ensures warnings == Desired(old(warnings), ms)
    {
      var names := set i | 0 <= i < |ms| :: ms[i].name;
      warnings := map k | k in warnings && k.name in names :: warnings[k];
    }

    /** Drops failures whose key is no longer desired. */
    method PruneFailures(specs: seq<Spec>)
      modifies this`failures
      ensures failures == DesiredFailures(old(failures), specs)
    {
      var keys := set i | 0 <= i < |specs| :: KeyOf(specs[i]);
      failures := map k | k in failures && k in keys :: failures[k];
    }

    /** Closes and drops the entries whose proxy exited. */
    method PruneExited()
      requires Ledger() && NoZero()
      modifies this`active, this`closed
      ensures Ledger() && NoZero()
      ensures active == map k | k in old(active) && old(Running(active[k].proxy)) :: old(active)[k]
      ensures old(closed) <= closed && forall p | p in closed :: p in old(closed) || p in exited
      ensures active == old(active) ==> closed == old(closed)
    {
      hide LedgerOf;
      EntriesNotClosed();
      var keys := active.Keys;
      while keys != {}
        invariant keys <= active.Keys <= old(active).Keys
        invariant Ledger() && NoZero()
        invariant forall k | k in active :: active[k] == old(active)[k]
        invariant forall k | k in old(active) :: k in active <==> k in keys || old(active)[k].proxy.value !in exited
        invariant old(closed) <= closed && forall p | p in closed :: p in old(closed) || p in exited
        invariant active == old(active) ==> closed == old(closed)
        decreases keys
      {
        var key :| key in keys;
        keys := keys - {key};
        EntriesNotClosed();
        var proxy := active[key].proxy;
        if !Running(proxy) {
          DropKeepsLedger(active, next, closed, exited, leaked, key);
          CloseProxy(proxy.value);
          active := active - {key};
        }
      }
    }

    lemma EntriesNotClosed()
      requires Ledger()
      ensures forall k | k in active && active[k].proxy.Some? :: active[k].proxy.value !in closed
    {
    }

    /** The first k specs have no failure any more, nor has a kept one; those of
        skipped specs are as before. */
    ghost predicate FailuresTo(specs: seq<Spec>, k: nat, skipped: set<string>, before: map<Key, Failure>)
      reads this`active, this`closed, this`exited, this`failures
    {
      && (forall j | 0 <= j < |specs| && (j < k || Kept(specs[j])) && specs[j].container.id !in skipped ::
            KeyOf(specs[j]) !in failures)
      && failures.Keys <= before.Keys && SkippedFailuresStay(specs, skipped, before, failures)
    }

    /** A failure is that of a desired spec. */
    ghost predicate FailuresDesired(specs: seq<Spec>)
      reads this`failures
    {
      forall key | key in failures :: exists j | 0 <= j < |specs| :: Key(specs[j].container.id, specs[j].mapping.name) == key
    }

    ghost predicate KeptUnfailed(specs: seq<Spec>)
      reads this`active, this`closed, this`exited, this`failures
    {
      forall j | 0 <= j < |specs| && Kept(specs[j]) :: KeyOf(specs[j]) !in failures
    }

    ghost function Noted(): Notes
      reads this`stops, this`probes, this`warnings
    {
      Notes(stops, probes, warnings)
    }

    /** One round of the first phase. */
    method ProbeOne(spec: Spec, mode: Mode, o: Outside, skipped: set<string>) returns (ok: bool, r: set<string>)
      modifies this`warnings, this`failures, this`probes, this`stops
      ensures RoundOf(spec, Kept(spec), mode, o, hasStopper, skipped, old(stops), old(warnings), ok, r, stops, warnings)
      ensures probes == old(probes) + if Kept(spec) then 0 else 1
      ensures failures == if ok then FailuresAfter(old(failures), spec, Kept(spec), mode, o, skipped) else old(failures)
    {
      var key := KeyOf(spec);
      r := skipped;
      if Kept(spec) {
        warnings := warnings - {key};
        failures := failures - {key};
        return true, r;
      }
      probes := probes + 1;
      match o.probe(spec) {
        case Clear =>
          warnings := warnings - {key};
        case Gone =>
          r := skipped + {spec.container.id};
          failures := failures - {key};
        case Broken =>
          return false, r;
        case Conflict =>
          if spec.container.desktop {
            r := skipped + {spec.container.id};
            warnings := warnings[key := DesktopConflict(spec)];
            failures := failures - {key};
          } else if mode == Transaction {
            return false, r;
          } else if spec.container.id !in skipped {
            if !hasStopper {
              return false, r;
            }
            stops := stops + [spec.container.id];
            if !o.stop(spec.container.id) {
              return false, r;
            }
            r := skipped + {spec.container.id};
            warnings := warnings[key := WorkloadStopped(spec)];
            failures := failures - {key};
          }
      }
      return true, r;
    }

    /** The first phase: probe what does not run yet. */
    method ProbePhase(specs: seq<Spec>, mode: Mode, o: Outside) returns (ok: bool, skipped: set<string>)
      requires DistinctKeys(specs)
      modifies this`warnings, this`failures, this`probes, this`stops
      ensures ProbesFit(old(Noted()), Noted(), specs, KeptNow(specs), mode, o, hasStopper, skipped, ok)
      ensures ok ==> FailedUpTo(old(failures), failures, specs, KeptNow(specs), mode, o, |specs|)
      ensures Settled(specs) ==>
                ok && probes == old(probes) && skipped == {} && stops == old(stops)
      ensures failures.Keys <= old(failures).Keys
      ensures ok ==> KeptUnfailed(specs)
    {
      hide Kept, KeyOf, RoundOf, ProbedTo, SkippedFit, StopsFit, EventPasses, WarnedUpTo, FailedUpTo, FailuresAfter, Passes, KeptUnfailed;
      ok, skipped := true, {};
      ghost var kept := KeptNow(specs);
      KeptSays(specs);
      NothingProbed(specs, kept, mode, o, hasStopper, stops, warnings);
      NothingFailed(failures, specs, kept, mode, o);
      for k := 0 to |specs|
        invariant ok
        invariant ProbedTo(specs, kept, mode, o, hasStopper, k, old(stops), old(warnings), skipped, stops, warnings)
        invariant FailedUpTo(old(failures), failures, specs, kept, mode, o, k)
        invariant probes == old(probes) + ProbeCount(specs[..k], kept)
      {
        ghost var before, stopped, warned, failed := skipped, stops, warnings, failures;
        assert specs[..k + 1][..k] == specs[..k];
        ok, skipped := ProbeOne(specs[k], mode, o, skipped);
        if !ok {
          RoundFails(specs, kept, mode, o, hasStopper, k, old(stops), old(warnings), before, stopped, warned,
                     skipped, stops, warnings);
          AllKeptPass(specs, mode, o, k, before, stopped, warned, skipped, stops, warnings);
          FewerFailures(old(failures), failures, specs, kept, mode, o, k);
          return;
        }
        RoundGoesOn(specs, kept, mode, o, hasStopper, k, old(stops), old(warnings), before, stopped, warned,
                    skipped, stops, warnings);
        RoundFailures(specs, kept, mode, o, hasStopper, k, old(stops), old(warnings), before, stopped, warned,
                      old(failures), failed, failures);
      }
      assert specs[..|specs|] == specs;
      if Settled(specs) {
        SettledKept(specs);
        NoProbes(specs, kept);
      }
      AllProbed(specs, kept, mode, o, hasStopper, old(stops), old(warnings), skipped, stops, warnings);
      FewerFailures(old(failures), failures, specs, kept, mode, o, |specs|);
      NoKeptFailure(old(failures), specs, mode, o);
    }

    lemma NoKeptFailure(before: map<Key, Failure>, specs: seq<Spec>, mode: Mode, o: Outside)
      requires FailedUpTo(before, failures, specs, KeptNow(specs), mode, o, |specs|)
      ensures KeptUnfailed(specs)
    {
      hide Kept;
      KeptSays(specs);
      forall j | 0 <= j < |specs| && Kept(specs[j]) ensures KeyOf(specs[j]) !in failures {
        assert FailedAt(before, failures, specs, KeptNow(specs), mode, o, j);
      }
    }

    /** A round over a spec that is kept cannot fail. */
    lemma AllKeptPass(specs: seq<Spec>, mode: Mode, o: Outside, k: nat, skipped: set<string>, stops: seq<string>,
                      warnings: map<Key, Warning>, skipped': set<string>, stops': seq<string>, warnings': map<Key, Warning>)
      requires k < |specs|
      requires RoundOf(specs[k], Kept(specs[k]), mode, o, hasStopper, skipped, stops, warnings, false, skipped', stops', warnings')
      ensures !Settled(specs)
    {
    }

    /** What phase two still has to start. */
    predicate Wanted(spec: Spec, skipped: set<string>)
      reads this`active, this`closed, this`exited
    {
      spec.container.id !in skipped && !Kept(spec)
    }

    /** The proxies that were started since are closed. */
    ghost predicate ClosedSince(lo: Proxy)
      reads this`next, this`closed
    {
      forall p: Proxy | lo <= p < next :: p in closed
    }

    /** Fresh proxies lo..next, one for each entry of `started`. */
    ghost predicate FreshEntries(started: map<Key, Active>, lo: Proxy)
      reads this`next
    {
      && lo <= next
      && (forall key | key in started :: started[key].proxy.Some? && lo <= started[key].proxy.value < next)
      && (forall a, b | a in started && b in started && a != b :: started[a].proxy != started[b].proxy)
      && (forall p: Proxy | lo <= p < next :: HasEntry(started, p))
    }

    ghost function Between(lo: Proxy, hi: Proxy): (r: set<Proxy>)
      ensures forall p: Proxy :: p in r <==> lo <= p < hi
      decreases hi
    {
      if lo >= hi then {} else Between(lo, hi - 1) + {hi - 1}
    }

    lemma FreshProxies(started: map<Key, Active>, lo: Proxy)
      requires FreshEntries(started, lo)
      ensures forall k | k in started :: started[k].proxy.Some? && started[k].proxy.value in Between(lo, next)
      ensures forall p | p in Between(lo, next) :: HasEntry(started, p)
    {
    }

    /** The failures after a start that failed. */
    ghost predicate StartFailedAt(started: map<Key, Active>, failed: Spec)
      reads this`failures
    {
      && KeyOf(failed) in failures && failures[KeyOf(failed)] == StartFailed(failed)
      && forall key | key in started :: key in failures && failures[key] == RolledBack(started[key].spec)
    }

    method RollBackStarted(started: map<Key, Active>, ghost lo: Proxy)
      requires LedgerPlus(Between(lo, next)) && FreshEntries(started, lo)
      modifies this`closed, this`failures
      ensures Ledger()
      ensures closed == old(closed) + Between(lo, next)
      ensures RollingBack(started, {}, old(failures), failures)
    {
      CloseExtraKeepsLedger(active, next, closed, exited, leaked, Between(lo, next));
      FreshProxies(started, lo);
      AllProxies(started, Between(lo, next));
      hide LedgerOf, Between, FreshEntries, RollingBack, ProxiesOf;
      CloseStarted(started);
    }

    /** The loop over the started entries. */
    method CloseStarted(started: map<Key, Active>)
      requires forall k | k in started :: started[k].proxy.Some?
      modifies this`closed, this`failures
      ensures closed == old(closed) + ProxiesOf(started, started.Keys)
      ensures RollingBack(started, {}, old(failures), failures)
    {
      hide RollingBack, ProxiesOf;
      NothingRolledBack(started, failures);
      var keys := started.Keys;
      ghost var done: set<Proxy> := {};
      while keys != {}
        invariant keys <= started.Keys
        invariant closed == old(closed) + done && done + ProxiesOf(started, keys) == ProxiesOf(started, started.Keys)
        invariant RollingBack(started, keys, old(failures), failures)
        decreases keys
      {
        var key :| key in keys;
        ProxiesNext(started, keys, key);
        RollBackNext(started, keys, old(failures), failures, key);
        keys := keys - {key};
        done := done + {started[key].proxy.value};
        CloseProxy(started[key].proxy.value);
        failures := failures[key := RolledBack(started[key].spec)];
      }
      NoProxies(started);
    }

    lemma NothingStarted()
      requires Ledger()
      ensures LedgerPlus(Between(next, next)) && FreshEntries(map[], next)
    {
      assert Between(next, next) == {};
    }

    ghost predicate StartedFor(specs: seq<Spec>, k: nat, skipped: set<string>, started: map<Key, Active>)
      requires k <= |specs|
      reads this`active, this`closed, this`exited
    {
      && (forall key | key in started :: exists j | 0 <= j < k ::
            KeyOf(specs[j]) == key && started[key].spec == specs[j] && Wanted(specs[j], skipped))
      && (forall j | 0 <= j < k && Wanted(specs[j], skipped) :: KeyOf(specs[j]) in started)
    }

    lemma StartedNext(specs: seq<Spec>, k: nat, skipped: set<string>, started: map<Key, Active>, proxy: Proxy)
      requires k < |specs| && DistinctKeys(specs) && StartedFor(specs, k, skipped, started)
      ensures Wanted(specs[k], skipped) ==>
                (KeyOf(specs[k]) !in started
                 && StartedFor(specs, k + 1, skipped, started[KeyOf(specs[k]) := Active(specs[k], Some(proxy))]))
      ensures !Wanted(specs[k], skipped) ==> StartedFor(specs, k + 1, skipped, started)
    {
    }

    lemma NoneStartedYet(specs: seq<Spec>, skipped: set<string>)
      ensures StartedFor(specs, 0, skipped, map[])
    {
    }

    /** A start that fails closes everything this call started. */
    method FailStart(started: map<Key, Active>, spec: Spec, ghost lo: Proxy)
      requires LedgerPlus(Between(lo, next)) && FreshEntries(started, lo) && KeyOf(spec) !in started
      modifies this`closed, this`failures
      ensures Ledger()
      ensures closed == old(closed) + Between(lo, next)
      ensures StartFailedAt(started, spec)
    {
      failures := failures[KeyOf(spec) := StartFailed(spec)];
      RollBackStarted(started, lo);
    }

    /** What the second phase keeps while it goes through the specs. */
    ghost predicate Starting(specs: seq<Spec>, k: nat, skipped: set<string>, o: Outside, started: map<Key, Active>, lo: Proxy)
      requires k <= |specs|
      reads this`active, this`next, this`closed, this`exited, this`leaked
    {
      && LedgerPlus(Between(lo, next)) && FreshEntries(started, lo)
      && StartedFor(specs, k, skipped, started)
      && (forall j | 0 <= j < k && Wanted(specs[j], skipped) :: o.start(specs[j]))
    }

    method StartNext(specs: seq<Spec>, k: nat, skipped: set<string>, o: Outside, started: map<Key, Active>, ghost lo: Proxy,
                     ghost before: map<Key, Failure>)
      returns (ok: bool, r: map<Key, Active>)
      requires k < |specs| && DistinctKeys(specs) && Starting(specs, k, skipped, o, started, lo)
      requires FailuresTo(specs, k, skipped, before)
      modifies this`next, this`closed, this`failures
      ensures next >= old(next)
      ensures ok ==> closed == old(closed) && Starting(specs, k + 1, skipped, o, r, lo)
      ensures ok ==> FailuresTo(specs, k + 1, skipped, before)
      ensures !ok ==> Ledger() && FreshEntries(r, lo) && closed == old(closed) + Between(lo, next)
      ensures !ok ==> !o.start(specs[k]) && old(Wanted(specs[k], skipped)) && StartFailedAt(r, specs[k])
    {
      hide Between, LedgerPlus, FreshEntries, Kept, StartedFor;
      var spec := specs[k];
      r := started;
      StartedNext(specs, k, skipped, started, next);
      if !Wanted(spec, skipped) {
        return true, r;
      }
      if !o.start(spec) {
        FailStart(started, spec, lo);
        return false, r;
      }
      StartOne(started, KeyOf(spec), spec, lo);
      r := started[KeyOf(spec) := Active(spec, Some(next - 1))];
      DroppedFailureStays(specs, skipped, before, failures, k);
      failures := failures - {KeyOf(spec)};
      return true, r;
    }

    /** The second phase: start every wanted proxy, or none. */
    method StartPhase(specs: seq<Spec>, skipped: set<string>, o: Outside)
      returns (ok: bool, started: map<Key, Active>, failed: Option<Spec>)
      requires Ledger() && DistinctKeys(specs)
      requires KeptUnfailed(specs)
      modifies this`next, this`closed, this`failures
      ensures next >= old(next) && (ok <==> failed.None?)
      ensures ok ==> closed == old(closed) && Starting(specs, |specs|, skipped, o, started, old(next))
      ensures !ok ==> Ledger() && FreshEntries(started, old(next)) && closed == old(closed) + Between(old(next), next)
      ensures ok ==> StartFailures(old(failures), failures, specs, skipped)
      ensures !ok ==> failed.value in specs && !o.start(failed.value)
      ensures !ok ==> failed.value.container.id !in skipped && failed.value !in old(KeptNow(specs))
      ensures !ok ==> StartFailedAt(started, failed.value)
    {
      started, failed := map[], None;
      NothingStarted();
      KeptSays(specs);
      assert FailuresTo(specs, 0, skipped, failures);
      hide LedgerPlus, FreshEntries, Wanted, Starting, Kept, FailuresTo, StartFailures, KeptUnfailed;
      assert Starting(specs, 0, skipped, o, started, next) by { StartBegins(specs, skipped, o); }
      for k := 0 to |specs|
        invariant next >= old(next) && closed == old(closed)
        invariant Starting(specs, k, skipped, o, started, old(next))
        invariant FailuresTo(specs, k, skipped, old(failures))
      {
        ok, started := StartNext(specs, k, skipped, o, started, old(next), old(failures));
        if !ok {
          assert specs[k] in specs;
          return false, started, Some(specs[k]);
        }
      }
      AllUnfailed(specs, skipped, old(failures));
      return true, started, None;
    }

    lemma AllUnfailed(specs: seq<Spec>, skipped: set<string>, before: map<Key, Failure>)
      requires FailuresTo(specs, |specs|, skipped, before)
      ensures StartFailures(before, failures, specs, skipped)
    {
    }

    lemma StartBegins(specs: seq<Spec>, skipped: set<string>, o: Outside)
      requires Ledger()
      ensures Starting(specs, 0, skipped, o, map[], next)
    {
      NothingStarted();
      NoneStartedYet(specs, skipped);
    }

    method StartOne(ghost started: map<Key, Active>, key: Key, spec: Spec, ghost lo: Proxy)
      requires LedgerPlus(Between(lo, next)) && FreshEntries(started, lo) && key !in started
      modifies this`next
      ensures next == old(next) + 1
      ensures LedgerPlus(Between(lo, next)) && FreshEntries(started[key := Active(spec, Some(next - 1))], lo)
    {
      next := next + 1;
      ghost var grown := started[key := Active(spec, Some(next - 1))];
      forall p: Proxy | lo <= p < next ensures HasEntry(grown, p) {
        if p == next - 1 {
          assert grown[key].proxy == Some(p);
        } else {
          assert HasEntry(started, p);
          var k :| k in started && started[k].proxy == Some(p);
          assert grown[k].proxy == Some(p);
        }
      }
      forall p: Proxy | Open(p) ensures HasEntry(active, p) || p in leaked || p in Between(lo, next) {
        assert p < old(next) ==> old(Open(p));
      }
    }

    /** The entry that the third phase installs for a spec. */
    function Choose(spec: Spec, started: map<Key, Active>): Active
      reads this`active, this`closed, this`exited
    {
      ChooseIn(active, closed, exited, spec, started)
    }

    ghost predicate Chosen(specs: seq<Spec>, k: nat, skipped: set<string>, started: map<Key, Active>, chosen: map<Key, Active>)
      requires k <= |specs|
      reads this`active, this`closed, this`exited
    {
      ChosenIn(specs, k, skipped, started, chosen, active, closed, exited)
    }

    method BuildNext(specs: seq<Spec>, skipped: set<string>, started: map<Key, Active>) returns (chosen: map<Key, Active>)
      requires DistinctKeys(specs)
      ensures Chosen(specs, |specs|, skipped, started, chosen)
    {
      hide ChooseIn;
      chosen := map[];
      for k := 0 to |specs|
        invariant Chosen(specs, k, skipped, started, chosen)
      {
        if specs[k].container.id !in skipped {
          chosen := chosen[KeyOf(specs[k]) := Choose(specs[k], started)];
        }
      }
    }

    method CloseDropped(chosen: map<Key, Active>)
      requires NoZero()
      modifies this`closed
      ensures closed == old(closed) + Dropped(active, chosen)
    {
      var keys := active.Keys;
      while keys != {}
        invariant keys <= active.Keys
        invariant closed == old(closed) + set k | k in active.Keys - keys && k !in chosen :: active[k].proxy.value
        decreases keys
      {
        var key :| key in keys;
        keys := keys - {key};
        if key !in chosen {
          CloseProxy(active[key].proxy.value);
        }
      }
    }

    /** Every started entry belongs to a spec that is installed and not kept. */
    ghost predicate StartedFits(specs: seq<Spec>, skipped: set<string>, started: map<Key, Active>)
      reads this`active, this`closed, this`exited
    {
      forall key | key in started :: exists j | 0 <= j < |specs| ::
        KeyOf(specs[j]) == key && Wanted(specs[j], skipped) && started[key].spec == specs[j]
    }

    /** The third phase: install the entries and close what is gone. */
    method SwapPhase(specs: seq<Spec>, skipped: set<string>, started: map<Key, Active>, ghost lo: Proxy)
      returns (chosen: map<Key, Active>)
      requires LedgerPlus(Between(lo, next)) && FreshEntries(started, lo) && NoZero() && DistinctKeys(specs)
      requires StartedFits(specs, skipped, started)
      modifies this`active, this`closed, this`leaked
      ensures Ledger()
      ensures active == chosen && old(Chosen(specs, |specs|, skipped, started, chosen))
      ensures closed == old(closed) + Dropped(old(active), active)
      ensures leaked == old(leaked) + Replaced(old(active), active, exited)
      ensures old(Settled(specs)) && skipped == {} ==> active == old(active)
    {
      hide LedgerOf, Between, Choose, Chosen, KeyOf, Kept, Dropped, Replaced, FreshEntries, StartedFits, Settled;
      chosen := BuildNext(specs, skipped, started);
      SwapFits(specs, skipped, started, chosen, lo);
      if Settled(specs) && skipped == {} {
        SettledChoice(specs, started, chosen);
      }
      SwapKeepsLedger(active, chosen, next, closed, exited, leaked, Between(lo, next));
      CloseDropped(chosen);
      leaked := leaked + Replaced(active, chosen, exited);
      active := chosen;
    }

    lemma SettledChoice(specs: seq<Spec>, started: map<Key, Active>, chosen: map<Key, Active>)
      requires Settled(specs) && Chosen(specs, |specs|, {}, started, chosen)
      ensures chosen == active
    {
      forall key | key in active ensures key in chosen && chosen[key] == active[key] {
        var j :| 0 <= j < |specs| && KeyOf(specs[j]) == key;
      }
    }

    lemma SwapFits(specs: seq<Spec>, skipped: set<string>, started: map<Key, Active>, chosen: map<Key, Active>, lo: Proxy)
      requires LedgerPlus(Between(lo, next)) && FreshEntries(started, lo) && DistinctKeys(specs)
      requires StartedFits(specs, skipped, started) && Chosen(specs, |specs|, skipped, started, chosen)
      ensures forall key | key in chosen && chosen[key].proxy.Some? ::
                (key in active && chosen[key].proxy == active[key].proxy) || chosen[key].proxy.value in Between(lo, next)
      ensures forall a, b | a in chosen && b in chosen && a != b && chosen[a].proxy.Some?
                            && chosen[a].proxy.value in Between(lo, next) :: chosen[a].proxy != chosen[b].proxy
      ensures forall p | p in Between(lo, next) :: HasEntry(chosen, p)
    {
      forall key | key in chosen
        ensures (key in active && chosen[key] == active[key]) || (key in started && chosen[key] == started[key]) || chosen[key] == ZERO
      {
        var j :| 0 <= j < |specs| && KeyOf(specs[j]) == key && specs[j].container.id !in skipped;
      }
      forall p | p in Between(lo, next) ensures HasEntry(chosen, p) {
        assert HasEntry(started, p);
        var key :| key in started && started[key].proxy == Some(p);
        var j :| 0 <= j < |specs| && KeyOf(specs[j]) == key && Wanted(specs[j], skipped) && started[key].spec == specs[j];
        assert chosen[key] == started[key];
      }
    }

    /** Every desired spec runs and nothing else is there. */
    ghost predicate Settled(specs: seq<Spec>)
      reads this`active, this`closed, this`exited
    {
      && (forall key | key in active :: exists j | 0 <= j < |specs| :: KeyOf(specs[j]) == key)
      && (forall j | 0 <= j < |specs| :: Kept(specs[j]))
    }

    /** A spec whose proxy runs until the second phase has passed it. */
    predicate KeptThroughStart(spec: Spec, o: Outside)
      reads this`active, this`closed, this`exited
    {
      Kept(spec) && active[KeyOf(spec)].proxy.value !in o.exitsBeforeStart
    }

    ghost predicate Converged(specs: seq<Spec>, skipped: set<string>, o: Outside, was: map<Key, Active>, kept: set<Spec>)
      reads this`active, this`exited
    {
      ConvergedTo(active, exited, specs, skipped, o, was, kept)
    }

    ghost function KeptSpecs(specs: seq<Spec>, o: Outside): set<Spec>
      reads this`active, this`closed, this`exited
    {
      set j | 0 <= j < |specs| && KeptThroughStart(specs[j], o) :: specs[j]
    }

    /** A spec whose proxy still runs when the first phase reads its flag. */
    predicate KeptAtProbe(spec: Spec, o: Outside)
      reads this`active, this`closed, this`exited
    {
      Kept(spec) && active[KeyOf(spec)].proxy.value !in o.exitsBeforeProbe
    }

    /** The specs whose proxy is still there when the second phase reads its
        flag, seen from the start of the call. */
    ghost function KeptByCall(specs: seq<Spec>, o: Outside): set<Spec>
      reads this`active, this`closed, this`exited
    {
      set j | 0 <= j < |specs| && KeptAtProbe(specs[j], o) && KeptThroughStart(specs[j], o) :: specs[j]
    }

    /** The specs whose proxy still runs when the first phase reads its flag,
        seen from the start of the call. */
    ghost function KeptAtCall(specs: seq<Spec>, o: Outside): set<Spec>
      reads this`active, this`closed, this`exited
    {
      set j | 0 <= j < |specs| && KeptAtProbe(specs[j], o) :: specs[j]
    }

    ghost function KeptNow(specs: seq<Spec>): set<Spec>
      reads this`active, this`closed, this`exited
    {
      set j | 0 <= j < |specs| && Kept(specs[j]) :: specs[j]
    }

    lemma KeptSays(specs: seq<Spec>)
      ensures forall j | 0 <= j < |specs| :: specs[j] in KeptNow(specs) <==> Kept(specs[j])
    {
    }

    lemma AllChoicesFit(specs: seq<Spec>, skipped: set<string>, o: Outside, started: map<Key, Active>, later: set<Proxy>,
                        lo: Proxy)
      requires Starting(specs, |specs|, skipped, o, started, lo) && NoZero() && DistinctKeys(specs)
      requires forall p | p in exited :: p < lo
      requires later == exited + set p | p in o.exitsBeforeSwap && p < next
      ensures forall j | 0 <= j < |specs| && specs[j].container.id !in skipped ::
                EntryFits(ChooseIn(active, closed, later, specs[j], started), specs[j], o, active, KeptNow(specs), later)
    {
      hide EntryFits, ChooseIn;
      var kept := KeptNow(specs);
      forall j | 0 <= j < |specs| && specs[j].container.id !in skipped
        ensures EntryFits(ChooseIn(active, closed, later, specs[j], started), specs[j], o, active, kept, later)
      {
        StartedOwn(specs, skipped, started, j);
        assert Kept(specs[j]) ==> specs[j] in kept;
        ChoiceFits(specs[j], o, active, closed, exited, later, started, kept, lo, next);
      }
    }

    /** Exits before the third phase, and the third phase. */
    method ExitAndSwap(specs: seq<Spec>, skipped: set<string>, o: Outside, started: map<Key, Active>, ghost lo: Proxy)
      requires Starting(specs, |specs|, skipped, o, started, lo) && NoZero() && DistinctKeys(specs)
      requires forall p | p in exited :: p < lo
      modifies this`active, this`closed, this`exited, this`leaked
      ensures Ledger()
      ensures Converged(specs, skipped, o, old(active), old(KeptNow(specs)))
      ensures leaked == old(leaked) + Replaced(old(active), active, exited)
      ensures closed == old(closed) + Dropped(old(active), active)
      ensures old(Settled(specs)) && skipped == {} && o.exitsBeforeSwap == {} ==> active == old(active)
      ensures exited == old(exited) + set p | p in o.exitsBeforeSwap && p < next
    {
      ghost var kept, was := KeptNow(specs), active;
      ghost var later := exited + set p | p in o.exitsBeforeSwap && p < next;
      AllChoicesFit(specs, skipped, o, started, later, lo);
      WantedLater(specs, skipped, started, later);
      hide LedgerOf, Between, Dropped, Replaced, FreshEntries, ChooseIn, ChosenIn, ConvergedTo, EntryFits, KeyOf, EqualSpec,
           KeptNow, StartedFor, DistinctKeys, Settled;
      Exit(o.exitsBeforeSwap, Between(lo, next));
      ghost var before := closed;
      ghost var chosen := SwapPhase(specs, skipped, started, lo);
      ChosenConverges(specs, skipped, o, started, chosen, was, before, later, kept);
    }

    lemma StartedOwn(specs: seq<Spec>, skipped: set<string>, started: map<Key, Active>, j: nat)
      requires StartedFor(specs, |specs|, skipped, started) && DistinctKeys(specs)
      requires j < |specs| && specs[j].container.id !in skipped
      ensures Kept(specs[j]) <==> KeyOf(specs[j]) !in started
      ensures KeyOf(specs[j]) in started ==> started[KeyOf(specs[j])].spec == specs[j]
    {
    }

    lemma WantedLater(specs: seq<Spec>, skipped: set<string>, started: map<Key, Active>, later: set<Proxy>)
      requires StartedFor(specs, |specs|, skipped, started) && exited <= later
      ensures forall key | key in started :: exists j | 0 <= j < |specs| ::
                KeyOf(specs[j]) == key && specs[j].container.id !in skipped
                && !KeptIn(active, closed, later, specs[j]) && started[key].spec == specs[j]
    {
    }

    lemma NothingWanted(specs: seq<Spec>, skipped: set<string>, started: map<Key, Active>, lo: Proxy)
      requires Settled(specs) && StartedFor(specs, |specs|, skipped, started) && FreshEntries(started, lo)
      ensures started == map[] && next == lo
    {
      assert started == map[];
      assert lo < next ==> HasEntry(started, lo);
    }

    method ExitBeforeStart(specs: seq<Spec>, o: Outside)
      requires Ledger()
      modifies this`exited
      ensures Ledger() && (forall p | p in exited :: p < next)
      ensures KeptNow(specs) == old(KeptSpecs(specs, o))
      ensures forall j | 0 <= j < |specs| && Kept(specs[j]) :: old(Kept(specs[j]))
      ensures o.exitsBeforeStart == {} ==> exited == old(exited)
      ensures exited == old(exited) + set p | p in o.exitsBeforeStart && p < next
    {
      Exit(o.exitsBeforeStart, {});
      assert forall j | 0 <= j < |specs| :: Kept(specs[j]) <==> old(KeptThroughStart(specs[j], o));
    }

    lemma SettledKept(specs: seq<Spec>)
      requires Settled(specs)
      ensures forall spec | spec in specs :: spec in KeptNow(specs)
    {
    }

    /** The second and third phase. */
    method StartAndSwap(specs: seq<Spec>, skipped: set<string>, o: Outside)
      returns (ok: bool, started: map<Key, Active>, failed: Option<Spec>)
      requires Ledger() && NoZero() && DistinctKeys(specs)
      modifies this`active, this`failures, this`next, this`closed, this`exited, this`leaked
      ensures Ledger() && next >= old(next) && FreshEntries(started, old(next)) && (ok <==> failed.None?)
      ensures !ok ==> active == old(active) && leaked == old(leaked)
      ensures !ok ==> ClosedSince(old(next))
      requires KeptUnfailed(specs)
      ensures !ok ==> failed.value in specs && !o.start(failed.value)
      ensures !ok ==> failed.value.container.id !in skipped && failed.value !in old(KeptSpecs(specs, o))
      ensures !ok ==> StartFailedAt(started, failed.value)
      ensures ok ==> StartFailures(old(failures), failures, specs, skipped)
      ensures ok ==> Converged(specs, skipped, o, old(active), old(KeptSpecs(specs, o)))
      ensures ok ==> leaked == old(leaked) + Replaced(old(active), active, exited)
      ensures ok ==> closed == old(closed) + Dropped(old(active), active)
      ensures ExitsFit(old(exited), exited, o, old(next), ok)
      ensures old(Settled(specs)) && skipped == {} && o.exitsBeforeStart == o.exitsBeforeSwap == {} ==>
                ok && active == old(active) && next == old(next) && closed == old(closed)
    {
      hide LedgerOf, Between, Kept, Converged, KeptNow, KeptSpecs, Unfailed;
      ExitBeforeStart(specs, o);
      if old(Settled(specs)) && o.exitsBeforeStart == {} {
        SettledKept(specs);
      }
      ok, started, failed := StartPhase(specs, skipped, o);
      if !ok {
        return;
      }
      if old(Settled(specs)) && o.exitsBeforeStart == {} {
        NothingWanted(specs, skipped, started, old(next));
      }
      ExitAndSwap(specs, skipped, o, started, old(next));
      assert Dropped(active, active) == {};
    }

    /** The failures after a success: none of an installed spec, none of a spec
        that is not desired, and of skipped ones those that are not forgotten. */
    ghost predicate FailuresFit(before: map<Key, Failure>, specs: seq<Spec>, skipped: set<string>, kept: set<Spec>, mode: Mode,
                                o: Outside)
      reads this`failures
    {
      && Unfailed(failures, specs, skipped) && FailuresDesired(specs)
      && SkippedFailures(DesiredFailures(before, specs), failures, specs, skipped, kept, mode, o)
    }

    /** The entries whose proxy runs. */
    ghost function Live(): map<Key, Active>
      reads this`active, this`closed, this`exited
    {
      map key | key in active && Running(active[key].proxy) :: active[key]
    }

    /** What a call promises about the specs it worked on, relative to the
        running entries `live` and the specs kept at its start. */
    ghost predicate Succeeded(specs: seq<Spec>, skipped: set<string>, o: Outside, live: map<Key, Active>, kept: set<Spec>,
                              leakedBefore: set<Proxy>)
      reads this`active, this`closed, this`exited, this`leaked
    {
      && Converged(specs, skipped, o, live, kept)
      && leaked == leakedBefore + Replaced(live, active, exited)
      && LeaksExactly(live, specs, skipped, exited, leaked - leakedBefore)
    }

    lemma LiveKept(specs: seq<Spec>, o: Outside)
      requires DistinctKeys(specs)
      ensures KeptFits(KeptByCall(specs, o), Live(), specs, o)
    {
    }

    lemma SucceedsWithLeaks(specs: seq<Spec>, skipped: set<string>, o: Outside, live: map<Key, Active>, kept: set<Spec>,
                            leakedBefore: set<Proxy>)
      requires Converged(specs, skipped, o, live, kept) && DistinctKeys(specs)
      requires leaked == leakedBefore + Replaced(live, active, exited)
      requires KeptFits(kept, live, specs, o) && ExitsCounted(live, o, exited)
      requires forall key | key in live && live[key].proxy.Some? :: live[key].proxy.value !in leakedBefore
      ensures Succeeded(specs, skipped, o, live, kept, leakedBefore)
    {
      hide ConvergedTo, KeptFits, ExitsCounted, LeaksExactly;
      ReplacedAreLeaks(active, exited, specs, skipped, o, live, kept);
      assert leaked - leakedBefore == Replaced(live, active, exited);
    }

    lemma LeakedStaysOpen(p: Proxy)
      requires Ledger() && p in leaked && p !in exited
      ensures Open(p)
    {
    }

    lemma LiveNotLeaked()
      requires Ledger()
      ensures forall key | key in Live() && Live()[key].proxy.Some? ::
                Live()[key].proxy.value < next && Live()[key].proxy.value !in leaked
    {
    }

    ghost predicate StartFailedCleanly(specs: seq<Spec>, o: Outside, started: map<Key, Active>, failed: Spec)
      reads this`failures
    {
      failed in specs && !o.start(failed) && StartFailedAt(started, failed)
    }

    ghost predicate ProbesPass(specs: seq<Spec>, o: Outside)
      reads this`active, this`closed, this`exited
    {
      forall spec | spec in specs :: Kept(spec) || Passes(o, spec)
    }

    /** ImportReconciler.Apply. The results beside `ok` are what the call did:
        skipped containers, the entries it started and the spec whose start
        failed. */
    method Apply(cs: seq<Container>, ms: seq<Mapping>, mode: Mode, o: Outside)
      returns (ok: bool, skipped: set<string>, started: map<Key, Active>, failed: Option<Spec>)
      requires Ledger() && NoZero() && DistinctIds(cs) && DistinctNames(Filter(ms, IMPORT))
      modifies this
      ensures Ledger() && next >= old(next) && FreshEntries(started, old(next))
      ensures exited <= old(exited) + o.exitsBeforeProbe + o.exitsBeforeStart + o.exitsBeforeSwap
      // The probes: when they pass, and what is skipped, stopped and warned of.
      ensures hasFactory ==>
                ProbesFit(old(Noted()).(warnings := Desired(old(warnings), Filter(ms, IMPORT))), Noted(), ImportSpecs(cs, ms),
                          old(KeptAtCall(ImportSpecs(cs, ms), o)), mode, o, hasStopper, skipped, ok || failed.Some?)
      ensures !hasFactory ==> !ok && failed.None? && skipped == {} && Noted() == old(Noted())
      // A failure commits nothing, and closes what it started.
      ensures !ok ==> desired == old(desired) && NoZero() && leaked == old(leaked)
      ensures !ok ==> active == if hasFactory then old(Live()) else old(active)
      ensures !ok ==> forall p: Proxy | old(next) <= p < next :: p in closed
      ensures failed.Some? ==> !ok && StartFailedCleanly(ImportSpecs(cs, ms), o, started, failed.value)
      ensures failed.Some? ==> failed.value.container.id !in skipped && failed.value !in old(KeptByCall(ImportSpecs(cs, ms), o))
      // A success converges.
      ensures ok ==> desired == Filter(ms, IMPORT)
      ensures ok ==> Succeeded(ImportSpecs(cs, ms), skipped, o, old(Live()), old(KeptByCall(ImportSpecs(cs, ms), o)), old(leaked))
      ensures ok ==> FailuresFit(old(failures), ImportSpecs(cs, ms), skipped, old(KeptAtCall(ImportSpecs(cs, ms), o)), mode, o)
      // Repeating it when all runs does nothing.
      ensures old(hasFactory && Settled(ImportSpecs(cs, ms))) && o.exitsBeforeProbe == {} ==>
                skipped == {} && probes == old(probes) && stops == old(stops)
      ensures old(hasFactory && Settled(ImportSpecs(cs, ms)))
              && o.exitsBeforeProbe == o.exitsBeforeStart == o.exitsBeforeSwap == {} ==>
                ok && active == old(active) && next == old(next) && closed == old(closed)
    {
      ImportSpecsExact(cs, ms);
      ok, skipped, started, failed := false, {}, map[], None;
      if !hasFactory {
        NothingStarted();
        return;
      }
      hide ImportSpecs, Filter, LedgerOf, FreshEntries, ProbesFit, Succeeded, KeptByCall, KeptAtCall, Kept, Live, Settled,
           FailuresFit;
      var candidate := Filter(ms, IMPORT);
      ok, skipped, started, failed := Reconcile(ImportSpecs(cs, ms), candidate, mode, o);
      if ok {
        desired := candidate;
      }
    }

    method Reconcile(specs: seq<Spec>, candidate: seq<Mapping>, mode: Mode, o: Outside)
      returns (ok: bool, skipped: set<string>, started: map<Key, Active>, failed: Option<Spec>)
      requires Ledger() && NoZero() && DistinctKeys(specs)
      modifies this`active, this`warnings, this`failures, this`next, this`closed, this`exited, this`probes, this`stops, this`leaked
      ensures Ledger() && next >= old(next) && FreshEntries(started, old(next))
      ensures exited <= old(exited) + o.exitsBeforeProbe + o.exitsBeforeStart + o.exitsBeforeSwap
      ensures ProbesFit(old(Noted()).(warnings := Desired(old(warnings), candidate)), Noted(), specs, old(KeptAtCall(specs, o)),
                        mode, o, hasStopper, skipped, ok || failed.Some?)
      ensures !ok ==> NoZero() && leaked == old(leaked) && active == old(Live())
      ensures !ok ==> forall p: Proxy | old(next) <= p < next :: p in closed
      ensures failed.Some? ==> !ok && StartFailedCleanly(specs, o, started, failed.value)
      ensures failed.Some? ==> failed.value.container.id !in skipped && failed.value !in old(KeptByCall(specs, o))
      ensures ok ==> FailuresFit(old(failures), specs, skipped, old(KeptAtCall(specs, o)), mode, o)
      ensures ok ==> Succeeded(specs, skipped, o, old(Live()), old(KeptByCall(specs, o)), old(leaked))
      ensures old(Settled(specs)) && o.exitsBeforeProbe == {} ==> skipped == {} && probes == old(probes) && stops == old(stops)
      ensures old(Settled(specs)) && o.exitsBeforeProbe == o.exitsBeforeStart == o.exitsBeforeSwap == {} ==>
                ok && active == old(active) && next == old(next) && closed == old(closed)
    {
      hide LedgerOf, Converged, KeptSpecs, KeptByCall, KeptAtCall, KeptNow, Kept, Replaced, Live, Settled, FreshEntries,
           ProbesFit, Unfailed, SkippedFailures, DesiredFailures;
      ghost var live, kept := Live(), KeptByCall(specs, o);
      LiveKept(specs, o);
      LiveNotLeaked();
      Prune(candidate, specs, o);
      ExitBeforeProbe(specs, o);
      ok, skipped, started, failed := Phases(specs, mode, o);
      if ok {
        SucceedsWithLeaks(specs, skipped, o, live, kept, old(leaked));
      }
    }

    /** The pruning at the start of a call. */
    method Prune(candidate: seq<Mapping>, specs: seq<Spec>, ghost o: Outside)
      requires Ledger() && NoZero()
      modifies this`active, this`closed, this`warnings, this`failures
      ensures Ledger() && NoZero() && active == old(Live())
      ensures KeptByCall(specs, o) == old(KeptByCall(specs, o))
      ensures KeptAtCall(specs, o) == old(KeptAtCall(specs, o))
      ensures warnings == Desired(old(warnings), candidate) && FailuresDesired(specs) && failures == DesiredFailures(old(failures), specs)
      ensures old(Settled(specs)) ==> Settled(specs) && active == old(active) && closed == old(closed)
    {
      hide LedgerOf, EqualSpec, SkipReason;
      PruneWarnings(candidate);
      PruneExited();
      PruneFailures(specs);
      assert forall spec :: Kept(spec) <==> old(Kept(spec));
      assert forall spec :: KeptAtProbe(spec, o) <==> old(KeptAtProbe(spec, o));
      assert forall spec :: KeptThroughStart(spec, o) <==> old(KeptThroughStart(spec, o));
      if old(Settled(specs)) {
        assert active == old(active) by {
          forall key | key in old(active) ensures key in active {
            var j :| 0 <= j < |specs| && KeyOf(specs[j]) == key;
            assert old(Kept(specs[j]));
          }
        }
      }
    }

    /** Exits after the pruning and before the first phase. */
    method ExitBeforeProbe(specs: seq<Spec>, o: Outside)
      requires Ledger() && NoZero()
      modifies this`exited
      ensures Ledger() && NoZero()
      ensures KeptSpecs(specs, o) == old(KeptByCall(specs, o))
      ensures KeptNow(specs) == old(KeptAtCall(specs, o))
      ensures o.exitsBeforeProbe == {} ==> exited == old(exited)
      ensures exited == old(exited) + set p | p in o.exitsBeforeProbe && p < next
    {
      hide EqualSpec, SkipReason, Passes;
      Exit(o.exitsBeforeProbe, {});
      assert forall spec :: Kept(spec) <==> old(KeptAtProbe(spec, o));
    }

    /** The three phases. */
    method Phases(specs: seq<Spec>, mode: Mode, o: Outside)
      returns (ok: bool, skipped: set<string>, started: map<Key, Active>, failed: Option<Spec>)
      requires Ledger() && NoZero() && DistinctKeys(specs)
      modifies this`active, this`warnings, this`failures, this`next, this`closed, this`exited, this`probes, this`stops, this`leaked
      ensures Ledger() && next >= old(next) && FreshEntries(started, old(next))
      ensures ProbesFit(old(Noted()), Noted(), specs, old(KeptNow(specs)), mode, o, hasStopper, skipped, ok || failed.Some?)
      ensures failed.Some? ==> failed.value.container.id !in skipped && failed.value !in old(KeptSpecs(specs, o))
      ensures ok ==> PhaseFailures(old(failures), failures, specs, skipped, old(KeptNow(specs)), mode, o)
      ensures !ok ==> active == old(active) && leaked == old(leaked) && ClosedSince(old(next))
      ensures failed.Some? ==> !ok && failed.value in specs && !o.start(failed.value)
                               && StartFailedAt(started, failed.value)
      ensures ok ==> Converged(specs, skipped, o, old(active), old(KeptSpecs(specs, o)))
      ensures ok ==> leaked == old(leaked) + Replaced(old(active), active, exited)
      ensures ExitsFit(old(exited), exited, o, old(next), ok)
      ensures old(Settled(specs)) ==> skipped == {} && probes == old(probes) && stops == old(stops)
      ensures old(Settled(specs)) && o.exitsBeforeStart == o.exitsBeforeSwap == {} ==>
                ok && active == old(active) && next == old(next) && closed == old(closed)
    {
      started, failed := map[], None;
      NothingStarted();
      hide *;
      ghost var before, kept, failuresBefore := Noted(), KeptNow(specs), failures;
      ok, skipped := ProbePhase(specs, mode, o);
      if !ok {
        NothingExited(o);
        NothingSince();
        return;
      }
      ghost var noted, failuresProbed := Noted(), failures;
      assert ProbesFit(before, noted, specs, kept, mode, o, hasStopper, skipped, true);
      ok, started, failed := StartAndSwap(specs, skipped, o);
      assert Noted() == noted;
      if ok {
        PhaseFailuresFit(failuresBefore, failuresProbed, failures, specs, skipped, kept, mode, o);
      }
    }

    lemma NothingSince()
      ensures ClosedSince(next)
    {
    }

    lemma NothingExited(o: Outside)
      ensures ExitsFit(exited, exited, o, next, false)
    {
    }

    /** ImportReconciler.Preflight passes exactly when a transaction would pass
        its probes. */
    method Preflight(cs: seq<Container>, ms: seq<Mapping>, o: Outside) returns (ok: bool)
      ensures ok <==> hasFactory && ProbesPass(ImportSpecs(cs, ms), o)
    {
      hide ImportSpecs, Kept;
      if !hasFactory {
        return false;
      }
      var specs := ImportSpecs(cs, ms);
      for k := 0 to |specs|
        invariant forall j | 0 <= j < k :: Kept(specs[j]) || Passes(o, specs[j])
      {
        if Kept(specs[k]) {
          continue;
        }
        var answer := o.probe(specs[k]);
        if answer.Clear? || answer.Gone? || (specs[k].container.desktop && answer.Conflict?) {
          continue;
        }
        return false;
      }
      return true;
    }

    /** ImportReconciler.Close. An entry without a proxy would panic. */
    method Close()
      requires Ledger() && NoZero()
      modifies this`active, this`warnings, this`failures, this`closed
      ensures Ledger() && NoZero() && active == map[] && warnings == map[] && failures == map[]
      ensures closed == old(closed) + Dropped(old(active), map[])
      ensures forall p: Proxy | Open(p) :: p in leaked
    {
      SwapKeepsLedger(active, map[], next, closed, exited, leaked, {});
      assert Replaced(active, map[], exited) == {} && leaked + {} == leaked;
      CloseDropped(map[]);
      active, warnings, failures := map[], map[], map[];
    }

    /** What a success means: entries are empty only for proxies that exited in
        the swap window; without such exits every spec that is not skipped runs,
        and with nothing skipped a repetition has nothing to do. */
    lemma ConvergedExactly(specs: seq<Spec>, skipped: set<string>, o: Outside, was: map<Key, Active>, kept: set<Spec>)
      requires Ledger() && Converged(specs, skipped, o, was, kept)
      ensures NoZero() <==> forall j | 0 <= j < |specs| && specs[j].container.id !in skipped :: !Vanished(specs[j], o, was, kept)
      ensures o.exitsBeforeSwap == {} ==>
                forall j | 0 <= j < |specs| :: specs[j].container.id in skipped || Kept(specs[j])
      ensures o.exitsBeforeSwap == {} && skipped == {} ==> Settled(specs)
    {
    }
  }

  /** In a transaction the only skipped containers are vanished workloads and
      a conflicting desktop. */
  lemma TransactionSkips(specs: seq<Spec>, kept: set<Spec>, o: Outside, id: string) returns (j: nat)
    requires SkippedUpTo(specs, kept, Transaction, o, |specs|, id)
    ensures j < |specs| && specs[j].container.id == id && specs[j] !in kept
    ensures o.probe(specs[j]).Gone? || (o.probe(specs[j]).Conflict? && specs[j].container.desktop)
  {
    j :| 0 <= j < |specs| && specs[j].container.id == id && SkipsAt(specs, kept, Transaction, o, j);
  }

  // ---- keys as text ---------------------------------------------------------

  const NUL := '\0'

  function KeyText(key: Key): string { key.id + [NUL] + key.name }

  /** Names are free of NUL, so a key can be split at its last NUL and keys
      with the same text are the same. */
  lemma {:induction false} KeyTextSplits(key: Key)
    requires forall i | 0 <= i < |key.name| :: key.name[i] != NUL
    ensures LastIndex(KeyText(key), NUL) == |key.id|
    ensures KeyText(key)[|key.id| + 1..] == key.name && KeyText(key)[..|key.id|] == key.id
    decreases |key.name|
  {
    var text := KeyText(key);
    if key.name != "" {
      var shorter := Key(key.id, key.name[..|key.name| - 1]);
      assert key.name == shorter.name + [key.name[|key.name| - 1]];
      assert text == KeyText(shorter) + [key.name[|key.name| - 1]];
      assert text[..|text| - 1] == KeyText(shorter);
      KeyTextSplits(shorter);
    }
  }

  lemma KeyTextInjective(a: Key, b: Key)
    requires ValidName(a.name) && ValidName(b.name) && KeyText(a) == KeyText(b)
    ensures a == b
  {
    KeyTextSplits(a);
    KeyTextSplits(b);
  }

  // ---- a leak and a missing proxy -------------------------------------------

  const APP := Container("c1", "app", true, 100, false, false)
  const DATABASE := Mapping("db", IMPORT, "127.0.0.1", 5432, 5432, 0)
  const APP_KEY := Key("c1", "db")

  /** Every probe is clear, every start succeeds, and nothing exits. */
  const SMOOTH := Outside(spec => Clear, id => true, spec => true, {}, {}, {})

  /** One container and one import make one spec. */
  lemma OneSpec(c: Container)
    requires c == APP.(pid := c.pid) && c.pid > 0
    ensures DistinctIds([c]) && DistinctNames(Filter([DATABASE], IMPORT)) && DistinctKeys(ImportSpecs([c], [DATABASE]))
    ensures forall spec :: spec in ImportSpecs([c], [DATABASE]) <==> spec == Spec(c, DATABASE)
  {
    SelectMembers([DATABASE], (m: Mapping) => m.direction == IMPORT);
    ImportSpecsExact([c], [DATABASE]);
  }

  /** After a smooth transaction on the one spec its key has an entry, which is
      empty only if its proxy was kept and exited before the swap. */
  lemma OneEntry(r: ImportReconciler, specs: seq<Spec>, spec: Spec, o: Outside, skipped: set<string>,
                 live: map<Key, Active>, kept: set<Spec>)
    requires forall s :: s in specs <==> s == spec
    requires r.Converged(specs, skipped, o, live, kept) && spec.container.id !in skipped
    ensures r.NoZero() <==> !Vanished(spec, o, live, kept)
    ensures r.active.Keys == {KeyOf(spec)}
    ensures EntryFits(r.active[KeyOf(spec)], spec, o, live, kept, r.exited)
  {
    hide EntryFits;
    assert spec in specs;
    var j :| 0 <= j < |specs| && specs[j] == spec;
    forall key | key in r.active ensures key == KeyOf(spec) {
      var k :| 0 <= k < |specs| && KeyOf(specs[k]) == key && specs[k].container.id !in skipped;
      assert specs[k] in specs;
    }
    FitsSays(r.active[KeyOf(spec)], spec, o, live, kept, r.exited);
  }

  lemma FitsSays(entry: Active, spec: Spec, o: Outside, was: map<Key, Active>, kept: set<Spec>, exited: set<Proxy>)
    requires EntryFits(entry, spec, o, was, kept, exited)
    ensures entry.proxy.Some? <==> !Vanished(spec, o, was, kept)
  {
  }

  /** One transaction for the one container, with clear probes and starts. */
  method ImportOnce(r: ImportReconciler, c: Container, o: Outside) returns (skipped: set<string>)
    requires r.Ledger() && r.NoZero() && r.hasFactory && c == APP.(pid := c.pid) && c.pid > 0
    requires o == SMOOTH.(exitsBeforeSwap := o.exitsBeforeSwap)
    modifies r
    ensures r.Ledger() && "c1" !in skipped && r.exited <= old(r.exited) + o.exitsBeforeSwap
    ensures var specs := ImportSpecs([c], [DATABASE]);
            r.Succeeded(specs, skipped, o, old(r.Live()), old(r.KeptByCall(specs, o)), old(r.leaked))
  {
    OneSpec(c);
    var ok, started, failed;
    ok, skipped, started, failed := r.Apply([c], [DATABASE], Transaction, o);
    hide ImportSpecs, Filter, LedgerOf, LeaksExactly, ConvergedTo, StopsFit, EventPasses, WarnedUpTo;
    assert ok;
    assert "c1" !in skipped;
  }

  /** A reconciler that imports into the one container. */
  method Importing() returns (r: ImportReconciler)
    ensures fresh(r) && r.hasFactory && r.Ledger() && r.NoZero() && r.leaked == r.exited == {}
    ensures r.active.Keys == {APP_KEY} && Reaches(r.active[APP_KEY].spec, APP, DATABASE)
    ensures r.Running(r.active[APP_KEY].proxy)
  {
    OneSpec(APP);
    r := new ImportReconciler(true, true);
    var specs := ImportSpecs([APP], [DATABASE]);
    ghost var live, kept := r.Live(), r.KeptByCall(specs, SMOOTH);
    assert live == map[] && kept == {};
    var skipped := ImportOnce(r, APP, SMOOTH);
    hide ImportSpecs, Filter, LedgerOf, LeaksExactly;
    OneEntry(r, specs, Spec(APP, DATABASE), SMOOTH, skipped, live, kept);
    r.EntriesNotClosed();
    assert r.leaked == {} by { assert forall key | key in live :: false; }
  }

  /** The first proxy of a restarted container is outdated. */
  lemma RestartOutdates(live: map<Key, Active>, restarted: Container, skipped: set<string>, p: Proxy)
    requires restarted == APP.(pid := 200) && "c1" !in skipped
    requires APP_KEY in live && live[APP_KEY].proxy == Some(p) && Reaches(live[APP_KEY].spec, APP, DATABASE)
    ensures Outdated(live, ImportSpecs([restarted], [DATABASE]), skipped, APP_KEY, p)
  {
    OneSpec(restarted);
    var specs := ImportSpecs([restarted], [DATABASE]);
    hide ImportSpecs;
    assert Spec(restarted, DATABASE) in specs;
  }

  /** A container that was restarted has another process ID under the same key:
      its first proxy is replaced, and even Close leaves it open. */
  method RestartLeaks() returns (r: ImportReconciler, p: Proxy)
    ensures r.active == map[] && r.Open(p)
  {
    hide ImportSpecs, Filter, LedgerOf, ConvergedTo, EqualSpec;
    r := Importing();
    p := r.active[APP_KEY].proxy.value;
    var restarted := APP.(pid := 200);
    OneSpec(restarted);
    var specs := ImportSpecs([restarted], [DATABASE]);
    ghost var live, kept := r.Live(), r.KeptByCall(specs, SMOOTH);
    assert live[APP_KEY].proxy == Some(p);
    var skipped := ImportOnce(r, restarted, SMOOTH);
    RestartOutdates(live, restarted, skipped, p);
    assert p in r.leaked;
    OneEntry(r, specs, Spec(restarted, DATABASE), SMOOTH, skipped, live, kept);
    r.Close();
    r.LeakedStaysOpen(p);
  }

  /** A proxy that exits between its second and third reading leaves an entry
      without a proxy. */
  method ExitLeavesNoProxy() returns (r: ImportReconciler)
    ensures APP_KEY in r.active && r.active[APP_KEY].proxy == None
  {
    r := Importing();
    var p := r.active[APP_KEY].proxy.value;
    OneSpec(APP);
    var specs := ImportSpecs([APP], [DATABASE]);
    var o := SMOOTH.(exitsBeforeSwap := {p});
    ghost var live, kept := r.Live(), r.KeptByCall(specs, o);
    assert Spec(APP, DATABASE) in specs;
    assert Spec(APP, DATABASE) in kept;
    var skipped := ImportOnce(r, APP, o);
    hide ImportSpecs, Filter, LedgerOf, LeaksExactly;
    OneEntry(r, specs, Spec(APP, DATABASE), o, skipped, live, kept);
    assert Vanished(Spec(APP, DATABASE), o, live, kept);
  }
}
