/** Adding and removing port mappings of a box (internal/sandbox/ports.go): the
    guards in front of the transaction, and the whole operation. */
module PortOperations {
  import opened PortForward
  import opened Records
  import opened Host
  import opened PortTransaction
  import opened ComposeStatus
  import opened Reconcile
  import opened Manager

  /** Foreign calls of one operation: whether the box lock or the import
      preflight fails, which listeners can be bound, and the transaction. */
  datatype PortCallsFor = PortCallsFor(
    lockFails: bool,
    env: Env,
    preflightFails: bool,
    bind: string -> bool,
    faults: Faults,
    now: int)

  predicate Bindable(previous: seq<Mapping>, bind: string -> bool, m: Mapping)
  {
    bind(Listener(m)) || exists i | 0 <= i < |previous| :: previous[i].direction == PUBLISH && Listener(previous[i]) == Listener(m)
  }

  /** Every publication that the box does not have yet can be bound. */
  method PreflightPublicationBindings(previous: seq<Mapping>, candidate: seq<Mapping>, bind: string -> bool)
    returns (ok: bool)
    ensures ok <==> forall m | m in candidate && m.direction == PUBLISH :: Bindable(previous, bind, m)
  {
    hide Listener, Filter, Bindable;
    FilterMembers(candidate, PUBLISH);
    var existing := Listeners(Filter(previous, PUBLISH));
    var wanted := Filter(candidate, PUBLISH);
    for k := 0 to |wanted|
      invariant forall i | 0 <= i < k :: Bindable(previous, bind, wanted[i])
    {
      var address := Listener(wanted[k]);
      HeldListeners(previous, existing, bind, wanted[k]);
      if address !in existing && !bind(address) {
        assert wanted[k] in wanted;
        return false;
      }
    }
    return true;
  }

  method Listeners(ms: seq<Mapping>) returns (r: set<string>)
    ensures forall l :: l in r <==> exists i | 0 <= i < |ms| :: Listener(ms[i]) == l
  {
    hide Listener;
    r := {};
    for k := 0 to |ms|
      invariant forall l :: l in r <==> exists i | 0 <= i < k :: Listener(ms[i]) == l
    {
      r := r + {Listener(ms[k])};
    }
  }

  lemma HeldListeners(previous: seq<Mapping>, existing: set<string>, bind: string -> bool, m: Mapping)
    requires var held := Filter(previous, PUBLISH);
             forall l :: l in existing <==> exists i | 0 <= i < |held| :: Listener(held[i]) == l
    ensures Bindable(previous, bind, m) <==> Listener(m) in existing || bind(Listener(m))
  {
    hide Listener, Filter;
    FilterMembers(previous, PUBLISH);
    var held := Filter(previous, PUBLISH);
    if Listener(m) in existing {
      var i :| 0 <= i < |held| && Listener(held[i]) == Listener(m);
      assert held[i] in held;
      var j :| 0 <= j < |previous| && previous[j] == held[i];
    }
    forall j | 0 <= j < |previous| && previous[j].direction == PUBLISH ensures Listener(previous[j]) in existing {
      assert previous[j] in held;
      var i :| 0 <= i < |held| && held[i] == previous[j];
    }
  }

  /** The outcome of a transaction on a loaded record: what it leaves is what
      the specification says, it is all or nothing outside the patterns of
      Escapes, and success puts files and record at the new mappings. */
  ghost predicate Transacted(ip: AddressParser, f: PortCallsFor, w: Runtime, current: State, id: string,
                             mappings: seq<Mapping>, r: Final)
  {
    id in current.boxes
    && var previous := FillPaths(current.boxes[id]);
    && r == Apply(ip, f.faults, f.now, w, current, current, previous, mappings)
    && var candidate := Candidate(previous, mappings, f.now);
    && (r.ok <==> !f.faults.lock && !f.faults.unlock && Succeeds(ip, f.faults, previous, candidate))
    && ((r.ok || UndoneOrDegraded(ip, w, current, previous, r)) <==> !Escapes(ip, f.faults, w, previous, candidate))
    && (!r.ok && !f.faults.unlock && RollsBackCleanly(f.faults, previous, candidate) && InSync(ip, w, previous) ==>
          AsBefore(ip, w, current, previous, r))
    && (r.ok ==>
          && r.disk == Put(current, candidate)
          && FilesHold(ip, r.runtime, SortMappings(mappings))
          && FilesSay(r.runtime, candidate.mappings)
          && InListOrder(candidate.mappings) && CandidateOf(previous, mappings, f.now, candidate)
          && (previous.status == Ready && InSync(ip, w, previous) ==>
                InSync(ip, r.runtime, candidate)))
  }

  method Change(world: World, current: State, id: string, mappings: seq<Mapping>, f: PortCallsFor)
    returns (ok: bool, ghost r: Final)
    requires Loaded(world, current, id) && current.boxes[id].status in {Ready, Stopped}
    requires |mappings| != |current.boxes[id].mappings|
    modifies world
    ensures world.Valid()
    ensures Transacted(world.ip, f, old(world.RuntimeOf(id)), current, id, mappings, r)
    ensures ok == r.ok && world.disk == r.disk && world.RuntimeOf(id) == r.runtime
    ensures OnlyRuntime(old(world.runtimes), world.runtimes, id)
  {
    hide Inv, HistoryInv, Apply, Filter, SortMappings, RenderConfig, RenderOverride, ValidSet, UndoneOrDegraded, Escapes,
         InSync, FilesHold, Succeeds, FilesSay, InListOrder, CandidateOf, RollsBackCleanly,
         AsBefore;
    ghost var w := world.RuntimeOf(id);
    var previous := FillPaths(current.boxes[id]);
    ok := ApplyPortMappings(world, f.faults, f.now, current, previous, mappings);
    r := Final(world.RuntimeOf(id), world.disk, ok);
    ApplySucceedsExactly(world.ip, f.faults, f.now, w, current, current, previous, mappings);
    AllOrNothing(world.ip, f.faults, f.now, w, current, current, previous, mappings);
    if !f.faults.unlock && !ok && RollsBackCleanly(f.faults, previous, Candidate(previous, mappings, f.now))
       && InSync(world.ip, w, previous) {
      CleanRollbackUndoes(world.ip, f.faults, f.now, w, current, previous, mappings);
    }
    if ok {
      SuccessMeansCandidate(world.ip, f.faults, f.now, w, current, current, previous, mappings);
    }
  }

  function Stamped(added: seq<Mapping>, now: int): (r: seq<Mapping>)
    ensures |r| == |added|
    ensures forall i | 0 <= i < |r| :: r[i] == added[i].(createdAt := if added[i].createdAt == 0 then now else added[i].createdAt)
  {
    if added == [] then []
    else
      var m := added[|added| - 1];
      Stamped(added[..|added| - 1], now) + [m.(createdAt := if m.createdAt == 0 then now else m.createdAt)]
  }

  function Added(box: Box, added: seq<Mapping>, now: int): seq<Mapping>
  {
    SortMappings(box.mappings + Stamped(added, now))
  }

  /** The box is ready, the whole set is valid, and the preflights pass. */
  ghost predicate Addable(ip: AddressParser, box: Box, added: seq<Mapping>, direction: string, f: PortCallsFor)
  {
    && box.status == Ready
    && ValidSet(ip, box.mappings + Stamped(added, f.now))
    && (direction == IMPORT ==> !f.preflightFails)
    && forall m | m in Added(box, added, f.now) && m.direction == PUBLISH :: Bindable(box.mappings, f.bind, m)
  }

  /** There is something to remove from a box in a fitting status. */
  ghost predicate Removable(box: Box, names: seq<string>, direction: string)
  {
    && box.status in {Ready, Stopped}
    && if names == [] then
         direction in {IMPORT, PUBLISH} && exists i | 0 <= i < |box.mappings| :: box.mappings[i].direction == direction
       else
         forall n | n in names :: exists i | 0 <= i < |box.mappings| :: box.mappings[i].name == n
  }

  /** All guards of an addition, in the order of the source. */
  method AdditionCandidate(world: World, current: State, id: string, added: seq<Mapping>, direction: string, f: PortCallsFor)
    returns (r: Option<seq<Mapping>>)
    requires id in current.boxes
    ensures r.Some? <==> Addable(world.ip, current.boxes[id], added, direction, f)
    ensures r.Some? ==> r.value == Added(current.boxes[id], added, f.now) && current.boxes[id].status == Ready
  {
    hide ValidSet, SortMappings, Bindable;
    var box := current.boxes[id];
    if box.status != Ready {
      return None;
    }
    var candidate := SortMappings(box.mappings + Stamped(added, f.now));
    SortKeepsValid(world.ip, box.mappings + Stamped(added, f.now));
    var invalid := ValidateSet(world.ip, candidate);
    if invalid.Some? {
      return None;
    }
    if direction == IMPORT && f.preflightFails {
      return None;
    }
    var bound := PreflightPublicationBindings(box.mappings, candidate, f.bind);
    return if bound then Some(candidate) else None;
  }

  /** ImportPorts and PublishPorts. Without a result the operation was refused
      before the transaction, and nothing but the reconciled statuses changed. */
  method AddPortMappings(world: World, id: string, added: seq<Mapping>, direction: string, f: PortCallsFor)
    returns (ok: bool, ghost current: State, ghost r: Option<Final>)
    requires world.Valid() && (f.env.managed.Some? ==> Reported(f.env.managed.value))
    modifies world
    ensures world.Valid()
    ensures OnlyRuntime(old(world.runtimes), world.runtimes, id)
    ensures r.None? ==> !ok && world.runtimes == old(world.runtimes)
    ensures r.None? ==> world.disk == old(world.disk) || Reconciles(f.env, old(world.disk), world.disk)
    ensures added != [] && (forall i | 0 <= i < |added| :: added[i].direction == direction)
            && !f.lockFails && Loads(f.env, old(world.disk)) && Known(f.env, old(world.disk), id) ==>
              && Reconciles(f.env, old(world.disk), current) && id in current.boxes
              && (r.Some? <==> Addable(world.ip, current.boxes[id], added, direction, f))
    ensures r.Some? ==>
              && added != [] && (forall i | 0 <= i < |added| :: added[i].direction == direction)
              && Reconciles(f.env, old(world.disk), current) && id in current.boxes && current.boxes[id].status == Ready
              && Transacted(world.ip, f, old(world.RuntimeOf(id)), current, id, Added(current.boxes[id], added, f.now), r.value)
              && ok == r.value.ok && world.disk == r.value.disk && world.RuntimeOf(id) == r.value.runtime
  {
    hide Inv, HistoryInv, ValidSet, SortMappings, Listener, Transacted, Reconciles, Reported, Loads, Known, Addable;
    r, current := None, world.disk;
    for k := 0 to |added|
      modifies {}
      invariant forall i | 0 <= i < k :: added[i].direction == direction
    {
      if added[k].direction != direction {
        return false, current, r;
      }
    }
    if added == [] {
      return false, current, r;
    }
    var loaded := LoadBox(world, f.env, f.lockFails, id);
    if loaded.None? {
      return false, current, r;
    }
    current := loaded.value;
    var candidate := AdditionCandidate(world, loaded.value, id, added, direction, f);
    if candidate.None? {
      return false, current, r;
    }
    ghost var final: Final;
    ok, final := Change(world, loaded.value, id, candidate.value, f);
    r := Some(final);
  }

  /** RemovePortMappings, allowed while the box is ready or stopped. */
  method RemovePortMappings(world: World, id: string, names: seq<string>, direction: string, f: PortCallsFor)
    returns (ok: bool, ghost current: State, ghost r: Option<Final>)
    requires world.Valid() && (f.env.managed.Some? ==> Reported(f.env.managed.value))
    modifies world
    ensures world.Valid()
    ensures OnlyRuntime(old(world.runtimes), world.runtimes, id)
    ensures r.None? ==> !ok && world.runtimes == old(world.runtimes)
    ensures r.None? ==> world.disk == old(world.disk) || Reconciles(f.env, old(world.disk), world.disk)
    ensures !f.lockFails && Loads(f.env, old(world.disk)) && Known(f.env, old(world.disk), id) ==>
              && Reconciles(f.env, old(world.disk), current) && id in current.boxes
              && (r.Some? <==> Removable(current.boxes[id], names, direction))
    ensures r.Some? ==>
              && Reconciles(f.env, old(world.disk), current) && id in current.boxes
              && current.boxes[id].status in {Ready, Stopped}
              && Transacted(world.ip, f, old(world.RuntimeOf(id)), current, id,
                            Select(current.boxes[id].mappings, (m: Mapping) => !Removes(names, direction, m)), r.value)
              && ok == r.value.ok && world.disk == r.value.disk && world.RuntimeOf(id) == r.value.runtime
  {
    hide Inv, HistoryInv, ValidSet, SortMappings, Listener, Transacted, Reconciles, Reported, Select, Loads, Known;
    r, current := None, world.disk;
    var loaded := LoadBox(world, f.env, f.lockFails, id);
    if loaded.None? {
      return false, current, r;
    }
    current := loaded.value;
    var box := loaded.value.boxes[id];
    if box.status != Ready && box.status != Stopped {
      return false, current, r;
    }
    var candidate := RemovalCandidate(box.mappings, names, direction);
    if candidate.None? {
      return false, current, r;
    }
    ghost var final: Final;
    ok, final := Change(world, loaded.value, id, candidate.value, f);
    r := Some(final);
  }
}
