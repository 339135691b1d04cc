/** The lifecycle operations of a box (internal/sandbox/manager.go). Every one
    keeps the history of the state file sound, whatever fails. */
module Manager {
  import opened Ordering
  import opened PortForward
  import opened Allocator
  import opened Records
  import opened Host
  import opened PortTransaction
  import opened ComposeStatus
  import opened Networks
  import opened Reconcile

  // ---- saving one record ----------------------------------------------------

  /** No box of the state file is missing from a state in memory, nor the error
      of a box other than the one in hand. */
  ghost predicate Covers(disk: State, current: State, id: string)
  {
    && (forall other | other in disk.boxes :: other in current.boxes)
    && (forall other | other != id && HasError(disk, other) :: HasError(current, other))
  }

  lemma CoversItself(s: State, id: string)
    ensures Covers(s, s, id)
  {
  }

  /** A save that keeps the error of the box in hand, or clears it after the
      port runtime was reapplied. */
  ghost predicate ErrorAccounted(ip: AddressParser, disk: State, runtimes: map<string, Runtime>, record: Box, reason: Reason)
  {
    || (HasError(disk, record.id) ==> record.runtimeError != "")
    || (reason == Reapplied(record.id) && RuntimeApplied(ip, RuntimeIn(runtimes, record.id), record))
  }

  lemma RecordSavable(ip: AddressParser, hash: seq<string> -> string, disk: State, runtimes: map<string, Runtime>,
                      current: State, record: Box,
                      connections: Connections, reason: Reason)
    requires Inv(hash, current) && Covers(disk, current, record.id) && BoxInv(record.id, record)
    requires Refreshed(current.connections, connections)
    requires ErrorAccounted(ip, disk, runtimes, record, reason)
    ensures var next := State(current.boxes[record.id := record], connections);
            Inv(hash, next) && Follows(ip, disk, Entry(reason, next, runtimes))
  {
    hide RuntimeApplied, Inv, Refreshed;
    PutBoxKeepsInv(hash, current, record);
    RefreshedKeepsInv(hash, Put(current, record), connections);
  }

  lemma Unrefreshed(connections: Connections)
    ensures Refreshed(connections, connections)
  {
  }

  /** Puts a record and saves the state. */
  method SaveBox(world: World, current: State, record: Box, save: SaveResult) returns (ok: bool)
    requires world.Valid() && Inv(world.hash, current) && Covers(world.disk, current, record.id)
    requires BoxInv(record.id, record) && (HasError(world.disk, record.id) ==> record.runtimeError != "")
    modifies world`disk, world`log
    ensures world.Valid() && (ok <==> save.Saved?)
    ensures world.disk == SaveEffect(save, old(world.disk), Put(current, record))
    ensures Inv(world.hash, Put(current, record)) && Covers(world.disk, Put(current, record), record.id)
    ensures HasError(world.disk, record.id) ==> record.runtimeError != ""
  {
    hide Inv, Follows, Refreshed;
    Unrefreshed(current.connections);
    RecordSavable(world.ip, world.hash, world.disk, world.runtimes, current, record, current.connections, Plain);
    ok := world.Save(Put(current, record), save, Plain);
  }

  /** persistError. */
  method PersistError(world: World, current: State, record: Box, save: SaveResult)
    requires world.Valid() && Inv(world.hash, current) && Covers(world.disk, current, record.id)
    requires record.ports.size >= 0 && (HasError(world.disk, record.id) ==> record.runtimeError != "")
    modifies world`disk, world`log
    ensures world.Valid()
    ensures world.disk == SaveEffect(save, old(world.disk), Put(current, record.(status := Error)))
  {
    hide Inv;
    var ok := SaveBox(world, current, record.(status := Error), save);
  }

  // ---- the port runtime -----------------------------------------------------

  datatype PortCalls = PortCalls(
    ensureRelay: Call<bool>,
    applyBridge: Call<Bridge>,
    probeRelay: bool,
    applyImports: Call<seq<Mapping>>)

  function RelayStep(w: Runtime, record: Box, f: PortCalls): Step
  {
    if HasImports(record.mappings) then RelayCall(w, true, f.ensureRelay) else Step(w, true)
  }

  /** What applyActivePortRuntime does: publications, then imports, each only
      when the record has some. */
  function ActiveStep(ip: AddressParser, w: Runtime, record: Box, f: PortCalls): Step
  {
    var bridge := if HasPublications(record.mappings) then BridgeCall(ip, w, record, f.applyBridge) else Step(w, true);
    if !bridge.ok || !HasImports(record.mappings) then bridge
    else if f.probeRelay then Step(bridge.runtime, false)
    else ImportsCall(ip, bridge.runtime, f.applyImports)
  }

  method StartImportRelay(world: World, record: Box, f: PortCalls) returns (ok: bool)
    modifies world`runtimes
    ensures OnlyRuntime(old(world.runtimes), world.runtimes, record.id)
    ensures Step(world.RuntimeOf(record.id), ok) == RelayStep(old(world.RuntimeOf(record.id)), record, f)
  {
    hide Filter;
    if !HasImports(record.mappings) {
      return true;
    }
    var relay := RelayCall(world.RuntimeOf(record.id), true, f.ensureRelay);
    world.SetRuntime(record.id, relay.runtime);
    return relay.ok;
  }

  method ApplyActivePortRuntime(world: World, record: Box, f: PortCalls) returns (ok: bool)
    modifies world`runtimes
    ensures OnlyRuntime(old(world.runtimes), world.runtimes, record.id)
    ensures Step(world.RuntimeOf(record.id), ok) == ActiveStep(world.ip, old(world.RuntimeOf(record.id)), record, f)
  {
    hide Filter, LoadConfig, BridgeFromFiles, ImportsFromFiles;
    var id := record.id;
    if HasPublications(record.mappings) {
      var bridge := BridgeCall(world.ip, world.RuntimeOf(id), record, f.applyBridge);
      world.SetRuntime(id, bridge.runtime);
      if !bridge.ok {
        return false;
      }
    }
    if HasImports(record.mappings) {
      if f.probeRelay {
        return false;
      }
      var proxies := ImportsCall(world.ip, world.RuntimeOf(id), f.applyImports);
      world.SetRuntime(id, proxies.runtime);
      if !proxies.ok {
        return false;
      }
    }
    return true;
  }

  /** After a success publications and imports are those of the files; files and
      relay are never touched. */
  lemma ActiveStepApplies(ip: AddressParser, w: Runtime, record: Box, f: PortCalls)
    ensures var step := ActiveStep(ip, w, record, f);
            && step.runtime == w.(bridge := step.runtime.bridge, imports := step.runtime.imports)
            && (step.ok ==> RuntimeApplied(ip, step.runtime, record))
  {
    hide Filter, LoadConfig;
  }

  /** What a Compose lifecycle call leaves of bridge and imports, and whether it
      succeeds. */
  datatype StartEffect = StartEffect(ok: bool, bridge: Bridge, imports: seq<Mapping>)

  method Lifecycle(world: World, id: string, effect: StartEffect) returns (ok: bool)
    modifies world`runtimes
    ensures OnlyRuntime(old(world.runtimes), world.runtimes, id) && ok == effect.ok
    ensures world.RuntimeOf(id) == old(world.RuntimeOf(id)).(bridge := effect.bridge, imports := effect.imports)
  {
    world.SetRuntime(id, world.RuntimeOf(id).(bridge := effect.bridge, imports := effect.imports));
    return effect.ok;
  }

  predicate ReadyNow(record: Box, answer: seq<ContainerStatus>)
  {
    ServicesUp(answer) && BridgeReady(answer, HasPublications(record.mappings))
  }

  method InspectReady(record: Box, answer: seq<ContainerStatus>) returns (ready: bool, status: ProjectStatus)
    ensures Derived(status, answer)
    ensures ready <==> ReadyNow(record, answer)
  {
    hide Filter, ServicesUp;
    status := DeriveStatus(answer);
    ServicesRun(answer);
    NothingUp();
    ready := ReadyFor(status, HasPublications(record.mappings));
  }

  function Renewed(record: Box): Box { record.(status := Ready, runtimeError := "") }

  ghost predicate AllFine(calls: NetworkCalls, current: State, record: Box)
  {
    forall c | c in current.connections ::
      Fine(calls, current.boxes[record.id := Renewed(record)], current.connections, record.id, c)
  }

  /** The connections of the box are reconciled, all others as they were. */
  ghost predicate Reconnected(calls: NetworkCalls, current: State, after: State, id: string)
  {
    forall c: string :: RefreshedAt(calls, after.boxes, current.connections, after.connections, id, c, true)
  }

  /** The common end of Ensure and Restart: the record is ready, its runtime
      error is gone, its connections are reconciled, and all of it is saved. */
  method FinishReady(world: World, current: State, record: Box, calls: NetworkCalls, save: SaveResult)
    returns (ok: bool)
    requires world.Valid() && Inv(world.hash, current) && Covers(world.disk, current, record.id)
    requires record.ports.size >= 0
    requires RuntimeApplied(world.ip, world.RuntimeOf(record.id), record)
    modifies world`disk, world`log
    ensures world.Valid()
    ensures ok <==> save.Saved? && AllFine(calls, current, record)
    ensures save.Lost? ==> world.disk == old(world.disk)
    ensures !save.Lost? ==>
              && world.disk.boxes == current.boxes[record.id := Renewed(record)]
              && Refreshed(current.connections, world.disk.connections)
    ensures ok ==> Reconnected(calls, current, world.disk, record.id)
  {
    hide Inv, Follows, Refreshed, Filter, LoadConfig, RefreshedAt, Fine;
    var renewed := Renewed(record);
    var boxes := current.boxes[record.id := renewed];
    var reconciled, connections := ReconcileForBox(calls, boxes, current.connections, record.id);
    ghost var reason := Reapplied(record.id);
    RecordSavable(world.ip, world.hash, world.disk, world.runtimes, current, renewed, connections, reason);
    var saved := world.Save(State(boxes, connections), save, reason);
    return reconciled && saved;
  }

  // ---- bringing a box up ----------------------------------------------------

  /** The calls of Ensure and Restart from the first save on. */
  datatype StartCalls = StartCalls(
    ports: PortCalls,
    start: StartEffect,
    answer: Option<seq<ContainerStatus>>,
    network: NetworkCalls,
    saveStart: SaveResult,
    saveError: SaveResult,
    saveLast: SaveResult)

  /** Relay, Compose call, inspection and port runtime, up to the first failure. */
  function UpStep(ip: AddressParser, w: Runtime, record: Box, u: StartCalls): Step
  {
    var relay := RelayStep(w, record, u.ports);
    if !relay.ok then relay else
    var up := relay.runtime.(bridge := u.start.bridge, imports := u.start.imports);
    if !u.start.ok || u.answer.None? || !ReadyNow(record, u.answer.value) then Step(up, false)
    else ActiveStep(ip, up, record, u.ports)
  }

  /** A container of the service answers and is the last one to: running, and
      healthy if that is asked. */
  ghost predicate Serves(cs: seq<ContainerStatus>, service: Service, healthy: bool)
  {
    exists i | 0 <= i < |cs| ::
      && cs[i].service == service && cs[i].running && (healthy ==> cs[i].healthy)
      && forall j | i < j < |cs| :: cs[j].service != service
  }

  ghost predicate HasService(cs: seq<ContainerStatus>, service: Service)
  {
    exists i | 0 <= i < |cs| :: cs[i].service == service
  }

  /** The four services of a box answer healthy, and its portbridge runs when
      something is published or it has one. */
  ghost predicate BoxIsUp(cs: seq<ContainerStatus>, mappings: seq<Mapping>)
  {
    && Serves(cs, Docker, true) && Serves(cs, Webtop, true) && Serves(cs, Loopback, true) && Serves(cs, Interconnect, true)
    && (Uses(mappings, PUBLISH) || HasService(cs, Portbridge) ==> Serves(cs, Portbridge, false))
  }

  ghost predicate Uses(mappings: seq<Mapping>, direction: string)
  {
    exists m :: m in mappings && m.direction == direction
  }

  lemma LastServes(cs: seq<ContainerStatus>, service: Service)
    ensures Serves(cs, service, true) <==> Up(LastOf(cs, service))
    ensures Serves(cs, service, false) <==> LastOf(cs, service).Some? && LastOf(cs, service).value.running
    ensures HasService(cs, service) <==> LastOf(cs, service).Some?
  {
    LastOfIs(cs, service);
    hide LastOf;
    if LastOf(cs, service).Some? {
      var i: nat :| IsLast(cs, service, i) && cs[i] == LastOf(cs, service).value;
      forall j | 0 <= j < |cs| && cs[j].service == service && forall k | j < k < |cs| :: cs[k].service != service
        ensures j == i {}
    }
  }

  lemma UsesSays(mappings: seq<Mapping>, direction: string)
    ensures Uses(mappings, direction) <==> Filter(mappings, direction) != []
  {
    FilterMembers(mappings, direction);
    HasMember(Filter(mappings, direction));
    hide Filter;
  }

  lemma BoxIsUpSays(record: Box, cs: seq<ContainerStatus>)
    ensures BoxIsUp(cs, record.mappings) <==> ReadyNow(record, cs)
  {
    hide LastOf, Filter, Serves, HasService, Uses;
    LastServes(cs, Docker);
    LastServes(cs, Webtop);
    LastServes(cs, Loopback);
    LastServes(cs, Interconnect);
    LastServes(cs, Portbridge);
    UsesSays(record.mappings, PUBLISH);
  }

  /** No port call that the record needs fails. */
  ghost predicate PortsApply(ip: AddressParser, w: Runtime, mappings: seq<Mapping>, f: PortCalls)
  {
    && (Uses(mappings, IMPORT) ==> f.ensureRelay.Done? && !f.probeRelay && f.applyImports.Done?)
    && (Uses(mappings, PUBLISH) ==> f.applyBridge.Done?)
    && (Uses(mappings, IMPORT) || Uses(mappings, PUBLISH) ==> w.config.Some? && LoadConfig(ip, w.config.value).Some?)
  }

  /** Every call of bringing the box up succeeds, its containers are up, and the
      port calls apply. */
  ghost predicate ComesUp(ip: AddressParser, w: Runtime, mappings: seq<Mapping>, u: StartCalls)
  {
    u.start.ok && u.answer.Some? && BoxIsUp(u.answer.value, mappings) && PortsApply(ip, w, mappings, u.ports)
  }

  lemma UpStepSays(ip: AddressParser, w: Runtime, record: Box, u: StartCalls)
    ensures UpStep(ip, w, record, u).ok <==> ComesUp(ip, w, record.mappings, u)
  {
    hide Filter, LoadConfig, BoxIsUp, ReadyNow, Uses;
    UsesSays(record.mappings, IMPORT);
    UsesSays(record.mappings, PUBLISH);
    if u.answer.Some? { BoxIsUpSays(record, u.answer.value); }
  }

  method BringUp(world: World, record: Box, u: StartCalls) returns (ok: bool)
    modifies world`runtimes
    ensures OnlyRuntime(old(world.runtimes), world.runtimes, record.id)
    ensures Step(world.RuntimeOf(record.id), ok) == UpStep(world.ip, old(world.RuntimeOf(record.id)), record, u)
    ensures ok <==> ComesUp(world.ip, old(world.RuntimeOf(record.id)), record.mappings, u)
  {
    UpStepSays(world.ip, world.RuntimeOf(record.id), record, u);
    hide RelayStep, ActiveStep, ReadyNow, ComesUp;
    ok := StartImportRelay(world, record, u.ports);
    if !ok {
      return;
    }
    ok := Lifecycle(world, record.id, u.start);
    if !ok || u.answer.None? {
      return false;
    }
    var ready, status := InspectReady(record, u.answer.value);
    if !ready {
      return false;
    }
    ok := ApplyActivePortRuntime(world, record, u.ports);
  }

  /** A box that came up serves what the files say, and its relay runs. */
  lemma UpStepApplies(ip: AddressParser, w: Runtime, record: Box, u: StartCalls)
    ensures var step := UpStep(ip, w, record, u);
            && step.runtime.config == w.config && step.runtime.override == w.override
            && (step.ok ==> RuntimeApplied(ip, step.runtime, record)
                            && (HasImports(record.mappings) ==> step.runtime.relayUp))
  {
    hide ActiveStep, ReadyNow, HasImports, RuntimeApplied;
    var relay := RelayStep(w, record, u.ports);
    ActiveStepApplies(ip, relay.runtime.(bridge := u.start.bridge, imports := u.start.imports), record, u.ports);
  }

  /** The steps behind the first failing one are not taken: what is left is what
      the relay, the Compose call and the port calls left. */
  lemma UpStepStops(ip: AddressParser, w: Runtime, record: Box, u: StartCalls)
    ensures var r := UpStep(ip, w, record, u).runtime;
            var imports, publishes := Uses(record.mappings, IMPORT), Uses(record.mappings, PUBLISH);
            && (imports && u.ports.ensureRelay.Failed? ==> r == w.(relayUp := u.ports.ensureRelay.left))
            && (!(imports && u.ports.ensureRelay.Failed?) ==>
                  var composed := w.(relayUp := imports || w.relayUp, bridge := u.start.bridge, imports := u.start.imports);
                  && (!u.start.ok || u.answer.None? || !BoxIsUp(u.answer.value, record.mappings) ==> r == composed)
                  && (publishes && u.ports.applyBridge.Failed? ==> r.imports == composed.imports)
                  && (imports && u.ports.probeRelay ==> r.imports == composed.imports)
                  && (!publishes ==> r.bridge == composed.bridge) && (!imports ==> r.imports == composed.imports)
                  && r.relayUp == composed.relayUp)
  {
    hide Filter, LoadConfig, BoxIsUp, ReadyNow, Uses;
    UsesSays(record.mappings, IMPORT);
    UsesSays(record.mappings, PUBLISH);
    if u.answer.Some? { BoxIsUpSays(record, u.answer.value); }
  }

  /** The boxes in the state file after the saves of StartBox. */
  function BoxesAfter(current: State, record: Box, up: bool, u: StartCalls): map<string, Box>
  {
    var first := SaveEffect(u.saveStart, current, Put(current, record));
    if !u.saveStart.Saved? then first.boxes
    else if !up then SaveEffect(u.saveError, first, Put(current, record.(status := Error))).boxes
    else if u.saveLast.Lost? then first.boxes
    else current.boxes[record.id := Renewed(record)]
  }

  /** What a start leaves of the boxes: other boxes as they were, and of its own
      record only status and runtime error changed, according to the last save
      that was not lost. */
  ghost predicate StartPersisted(before: map<string, Box>, after: map<string, Box>, record: Box, up: bool, u: StartCalls)
  {
    if u.saveStart.Lost? then after == before
    else
      && after.Keys == before.Keys + {record.id}
      && (forall other | other in before && other != record.id :: after[other] == before[other])
      && var r := after[record.id];
      && r == record.(status := r.status, runtimeError := r.runtimeError)
      && (r.status == Ready && r.runtimeError == "" <== u.saveStart.Saved? && up && !u.saveLast.Lost?)
      && (r.status == Error <== u.saveStart.Saved? && !up && !u.saveError.Lost?)
      && (r.status == record.status <== u.saveStart.Torn? || (if up then u.saveLast.Lost? else u.saveError.Lost?))
      && (r.runtimeError == record.runtimeError <== u.saveStart.Torn? || !up || u.saveLast.Lost?)
  }

  lemma BoxesAfterSays(current: State, record: Box, up: bool, u: StartCalls)
    ensures StartPersisted(current.boxes, BoxesAfter(current, record, up, u), record, up, u)
  {
  }

  /** A loaded state and a record of it that may be saved. */
  ghost predicate Startable(world: World, current: State, record: Box)
    reads world
  {
    && world.Valid() && world.disk == current && Inv(world.hash, current)
    && BoxInv(record.id, record) && (HasError(current, record.id) ==> record.runtimeError != "")
  }

  /** What Ensure of a box that is not up and Restart share: save the record,
      bring the box up, then finish or persist the error. */
  method StartBox(world: World, current: State, record: Box, u: StartCalls) returns (ok: bool)
    requires Startable(world, current, record)
    modifies world
    ensures world.Valid()
    ensures OnlyRuntime(old(world.runtimes), world.runtimes, record.id)
    ensures var w, up := old(world.RuntimeOf(record.id)), ComesUp(world.ip, old(world.RuntimeOf(record.id)), record.mappings, u);
            && world.RuntimeOf(record.id) == (if u.saveStart.Saved? then UpStep(world.ip, w, record, u).runtime else w)
            && world.disk.boxes == BoxesAfter(current, record, up, u)
            && (ok <==> u.saveStart.Saved? && up && u.saveLast.Saved? && AllFine(u.network, current, record))
    ensures ok ==> RuntimeApplied(world.ip, world.RuntimeOf(record.id), record)
                   && (HasImports(record.mappings) ==> world.RuntimeOf(record.id).relayUp)
    ensures Refreshed(current.connections, world.disk.connections)
    ensures ok ==> Reconnected(u.network, current, world.disk, record.id)
  {
    hide Inv, Follows, Refreshed, HistoryInv, Covers, UpStep, ComesUp, AllFine, Reconnected, RuntimeApplied, HasImports;
    Unrefreshed(current.connections);
    CoversItself(current, record.id);
    ok := SaveBox(world, current, record, u.saveStart);
    if !ok {
      return;
    }
    var saved := Put(current, record);
    UpStepApplies(world.ip, world.RuntimeOf(record.id), record, u);
    ok := BringUp(world, record, u);
    if !ok {
      PersistError(world, saved, record, u.saveError);
      assert Put(saved, record.(status := Error)) == Put(current, record.(status := Error));
      return;
    }
    AgainFine(u.network, current, record);
    ok := FinishReady(world, saved, record, u.network, u.saveLast);
    assert saved.boxes[record.id := Renewed(record)] == current.boxes[record.id := Renewed(record)];
  }

  lemma AgainFine(calls: NetworkCalls, current: State, record: Box)
    ensures AllFine(calls, Put(current, record), record) <==> AllFine(calls, current, record)
    ensures forall after: State ::
              Reconnected(calls, Put(current, record), after, record.id) <==> Reconnected(calls, current, after, record.id)
  {
    hide Fine, RefreshedAt;
    assert Put(current, record).boxes[record.id := Renewed(record)] == current.boxes[record.id := Renewed(record)];
  }

  // ---- choosing a block -----------------------------------------------------

  ghost predicate FreeFor(boxes: map<string, Box>, id: string, block: Block)
  {
    forall other | other in boxes && other != id :: Apart(boxes[other].ports, block)
  }

  /** The allocator may give the block to the box. */
  ghost predicate Usable(boxes: map<string, Box>, id: string, os: Sockets, block: Block)
  {
    FreeFor(boxes, id, block) && Available(os, block)
  }

  /** The first usable aligned block; none exactly when no slot is usable. */
  ghost predicate FirstUsable(boxes: map<string, Box>, id: string, os: Sockets, base: int, size: int, r: Option<Block>)
  {
    if base < 1 || size < 6 then r.None?
    else if r.None? then forall j: nat | j < Slots(base, size) :: !Usable(boxes, id, os, Slot(base, size, j))
    else exists k: nat ::
           && k < Slots(base, size) && r.value == Slot(base, size, k) && Usable(boxes, id, os, Slot(base, size, k))
           && forall j: nat | j < k :: !Usable(boxes, id, os, Slot(base, size, j))
  }

  /** The block given by the caller, else the recorded one, else the first usable
      one of the allocator. */
  ghost predicate Chooses(boxes: map<string, Box>, id: string, given: Block, allocator: Option<(int, int)>, os: Sockets,
                          r: Option<Block>)
  {
    if given.size != 0 then r == Some(given)
    else if id in boxes && boxes[id].ports.size != 0 then r == Some(boxes[id].ports)
    else if allocator.None? then r.None?
    else FirstUsable(boxes, id, os, allocator.value.0, allocator.value.1, r)
  }

  lemma ChosenIsFree(boxes: map<string, Box>, id: string, given: Block, allocator: Option<(int, int)>, os: Sockets,
                     r: Option<Block>)
    requires Chooses(boxes, id, given, allocator, os, r) && r.Some?
    ensures r.value.size != 0
    ensures given.size == 0 ==> FreeFor(boxes, id, r.value) || (id in boxes && r.value == boxes[id].ports)
  {
    hide FreeFor, Available;
  }

  method ChooseBlock(boxes: map<string, Box>, id: string, given: Block, allocator: Option<(int, int)>, os: Sockets)
    returns (r: Option<Block>)
    requires forall other | other in boxes :: boxes[other].ports.size >= 0
    ensures Chooses(boxes, id, given, allocator, os, r)
  {
    hide Grantable, Usable;
    if given.size != 0 {
      return Some(given);
    }
    if id in boxes && boxes[id].ports.size != 0 {
      return Some(boxes[id].ports);
    }
    if allocator.None? {
      return None;
    }
    var used := UsedBlocks(boxes, id);
    r := Reserve(allocator.value.0, allocator.value.1, used, os);
    if allocator.value.1 >= 6 {
      forall k: nat ensures Grantable(os, used, Slot(allocator.value.0, allocator.value.1, k)) <==>
                            Usable(boxes, id, os, Slot(allocator.value.0, allocator.value.1, k))
      {
        GrantableIsUsable(boxes, id, used, os, Slot(allocator.value.0, allocator.value.1, k));
      }
    }
  }

  /** The recorded blocks of the other boxes. */
  ghost predicate IsUsed(boxes: map<string, Box>, id: string, block: Block)
  {
    block.size != 0 && exists other | other in boxes && other != id :: boxes[other].ports == block
  }

  method UsedBlocks(boxes: map<string, Box>, id: string) returns (used: seq<Block>)
    requires forall other | other in boxes :: boxes[other].ports.size >= 0
    ensures forall i | 0 <= i < |used| :: used[i].size >= 1
    ensures forall block :: block in used <==> IsUsed(boxes, id, block)
  {
    used := [];
    var rest := boxes.Keys - {id};
    while rest != {}
      invariant rest <= boxes.Keys - {id}
      invariant forall i | 0 <= i < |used| :: used[i].size >= 1 && IsUsed(boxes, id, used[i])
      invariant forall other | other in boxes && other != id && other !in rest && boxes[other].ports.size != 0 ::
                  boxes[other].ports in used
      decreases rest
    {
      var other :| other in rest;
      rest := rest - {other};
      if boxes[other].ports.size != 0 {
        used := used + [boxes[other].ports];
      }
    }
  }

  lemma GrantableIsUsable(boxes: map<string, Box>, id: string, used: seq<Block>, os: Sockets, block: Block)
    requires block.size != 0 && forall b :: b in used <==> IsUsed(boxes, id, b)
    ensures Grantable(os, used, block) <==> Usable(boxes, id, os, block)
  {
    hide SharesPort, Available;
    if Grantable(os, used, block) {
      forall other | other in boxes && other != id ensures Apart(boxes[other].ports, block) {
        if boxes[other].ports.size != 0 {
          assert IsUsed(boxes, id, boxes[other].ports);
          var i :| 0 <= i < |used| && used[i] == boxes[other].ports;
          ApartSymmetric(block, used[i]);
        }
      }
    }
    if Usable(boxes, id, os, block) {
      forall i | 0 <= i < |used| ensures !SharesPort(block, used[i]) {
        assert used[i] in used;
        ApartSymmetric(block, used[i]);
      }
    }
  }

  lemma ApartSymmetric(a: Block, b: Block)
    ensures SharesPort(a, b) <==> SharesPort(b, a)
  {
    if SharesPort(a, b) {
      var port :| Holds(a, port) && Holds(b, port);
      assert Holds(b, port) && Holds(a, port);
    }
    if SharesPort(b, a) {
      var port :| Holds(b, port) && Holds(a, port);
      assert Holds(a, port) && Holds(b, port);
    }
  }

  lemma ChosenKeepsDisjoint(boxes: map<string, Box>, record: Box)
    requires Disjoint(boxes)
    requires FreeFor(boxes, record.id, record.ports) || (record.id in boxes && record.ports == boxes[record.id].ports)
    ensures Disjoint(boxes[record.id := record])
  {
    hide SharesPort;
    var id, next := record.id, boxes[record.id := record];
    forall a, b | a in next && b in next && a != b ensures Apart(next[a].ports, next[b].ports) {
      ApartSymmetric(next[a].ports, next[b].ports);
      if a != id && b != id {
        assert Apart(boxes[a].ports, boxes[b].ports);
      } else if id in boxes && record.ports == boxes[id].ports {
        assert Apart(boxes[a].ports, boxes[b].ports);
      } else {
        assert Apart(boxes[if a == id then b else a].ports, record.ports);
      }
    }
  }

  // ---- Ensure ---------------------------------------------------------------

  /** What the caller asks for; its port mappings are the recorded ones. */
  datatype Spec = Spec(id: string, name: string, worktree: string, gateway: bool, ports: Block)

  /** The outcome of every foreign call of one Ensure. `files` says which of the
      two port files fails to be written, renderEarly and renderLate whether
      another file fails before or after them, and changed whether any
      rendered file changed. */
  datatype EnsureCalls = EnsureCalls(
    lockFails: bool,
    env: Env,
    allocator: Option<(int, int)>,
    os: Sockets,
    renderEarly: bool,
    files: Faults,
    renderLate: bool,
    changed: bool,
    answer: Option<seq<ContainerStatus>>,
    up: StartCalls)

  function RecordedMappings(boxes: map<string, Box>, id: string): seq<Mapping>
  {
    if id in boxes then boxes[id].mappings else []
  }

  function EnsuredRecord(env: Env, known: Option<Box>, spec: Spec, block: Block, directory: string): Box
  {
    var mappings := if known.Some? then known.value.mappings else [];
    Box(spec.id,
        if spec.name != "" then spec.name
        else if known.Some? && known.value.name != "" then known.value.name
        else env.baseName(spec.worktree),
        spec.worktree,
        "wktbox-" + spec.id,
        if known.Some? then known.value.status else Creating,
        block,
        directory,
        spec.gateway,
        directory + "/ports/ports.json",
        if HasPublications(mappings) then directory + "/ports.override.yml" else "",
        directory + "/ports/relay.token",
        mappings,
        if known.Some? then known.value.runtimeError else "",
        env.now)
  }

  /** What a record that Ensure renders has from its caller, and what it keeps. */
  ghost predicate EnsuredAs(env: Env, known: Option<Box>, spec: Spec, block: Block, directory: string, r: Box)
  {
    && r.id == spec.id && r.worktree == spec.worktree && r.gatewayEnabled == spec.gateway && r.ports == block
    && r.projectName == "wktbox-" + spec.id && r.directory == directory && r.lastUsed == env.now
    && (spec.name != "" ==> r.name == spec.name)
    && (spec.name == "" ==>
          if known.Some? && known.value.name != "" then r.name == known.value.name else r.name == env.baseName(spec.worktree))
    && r.mappings == (if known.Some? then known.value.mappings else [])
    && r.configPath == directory + "/ports/ports.json" && r.tokenPath == directory + "/ports/relay.token"
    && r.overridePath == if Uses(r.mappings, PUBLISH) then directory + "/ports.override.yml" else ""
  }

  lemma EnsuredRecordSays(env: Env, known: Option<Box>, spec: Spec, block: Block, directory: string)
    ensures var record := EnsuredRecord(env, known, spec, block, directory);
            && EnsuredAs(env, known, spec, block, directory, record)
            && EnsuredAs(env, known, spec, block, directory, Renewed(record))
            && record.runtimeError == (if known.Some? then known.value.runtimeError else "")
  {
    hide Filter;
    UsesSays(EnsuredRecord(env, known, spec, block, directory).mappings, PUBLISH);
  }

  /** Publications and imports of the record are served, and its relay runs. */
  predicate RuntimeServes(w: Runtime, box: Box)
  {
    && (HasPublications(box.mappings) ==> w.bridge == BridgeUp(RenderOverride(box.mappings), Filter(box.mappings, PUBLISH)))
    && (HasImports(box.mappings) ==> w.imports == Filter(box.mappings, IMPORT) && w.relayUp)
  }

  /** Files and runtime serve every mapping of the record. */
  predicate ServesRecord(ip: AddressParser, w: Runtime, box: Box)
  {
    FilesHold(ip, w, box.mappings) && RuntimeServes(w, box)
  }

  lemma AppliedServes(ip: AddressParser, w: Runtime, box: Box)
    requires FilesHold(ip, w, box.mappings) && RuntimeApplied(ip, w, box)
    requires box.overridePath != "" <==> HasPublications(box.mappings)
    requires HasImports(box.mappings) ==> w.relayUp
    ensures ServesRecord(ip, w, box)
  {
    hide Filter, LoadConfig, RenderConfig, RenderOverride, ValidSet, BridgeFromFiles, ImportsFromFiles;
    FilesDetermineRuntime(ip, w, box);
  }

  lemma RenderedHold(ip: AddressParser, f: Faults, w: Runtime, ms: seq<Mapping>)
    requires RenderFiles(ip, f, w, ms).ok
    ensures FilesHold(ip, RenderFiles(ip, f, w, ms).runtime, ms)
  {
    hide Filter, LoadConfig, SortMappings, RenderOverride, ValidSet;
    LoadAfterRender(ip, ms);
  }

  lemma PathSuffix(directory: string)
    ensures directory + "/ports.override.yml" != ""
  {
    assert |directory + "/ports.override.yml"| > |directory|;
  }

  /** What holds of a record between rendering and the end of Ensure. */
  ghost predicate Prepared(world: World, current: State, record: Box)
    reads world
  {
    && world.Valid() && world.disk == current && Inv(world.hash, current)
    && record.ports.size >= 0
    && (HasError(current, record.id) ==> record.runtimeError != "")
    && (record.overridePath != "" <==> HasPublications(record.mappings))
    && FilesHold(world.ip, world.RuntimeOf(record.id), record.mappings)
  }

  /** The state file holds the boxes it held, or those with a version of the
      record that has the same block. */
  ghost predicate Stores(boxes: map<string, Box>, current: State, record: Box)
  {
    boxes == current.boxes
    || (record.id in boxes && boxes[record.id].ports == record.ports && boxes[record.id].id == record.id
        && boxes == current.boxes[record.id := boxes[record.id]])
  }

  /** The result of a successful Ensure, as persisted. */
  ghost predicate Ensured(world: World, record: Box, r: Box)
    reads world
  {
    && r == Renewed(record)
    && record.id in world.disk.boxes && world.disk.boxes[record.id] == r
    && ServesRecord(world.ip, world.RuntimeOf(record.id), r)
  }

  lemma FilesHoldFramed(ip: AddressParser, w: Runtime, v: Runtime, ms: seq<Mapping>)
    requires FilesHold(ip, w, ms) && v.config == w.config && v.override == w.override
    ensures FilesHold(ip, v, ms)
  {
  }

  lemma ServesRenewed(ip: AddressParser, w: Runtime, record: Box)
    requires ServesRecord(ip, w, record)
    ensures ServesRecord(ip, w, Renewed(record))
  {
  }

  /** Relay and port runtime of a box that is up. */
  function ReadyStep(ip: AddressParser, w: Runtime, record: Box, f: PortCalls): Step
  {
    var relay := RelayStep(w, record, f);
    if !relay.ok then relay else ActiveStep(ip, relay.runtime, record, f)
  }

  lemma ReadyStepApplies(ip: AddressParser, w: Runtime, record: Box, f: PortCalls)
    ensures var step := ReadyStep(ip, w, record, f);
            && step.runtime.config == w.config && step.runtime.override == w.override
            && (step.ok ==> RuntimeApplied(ip, step.runtime, record)
                            && (HasImports(record.mappings) ==> step.runtime.relayUp))
  {
    hide ActiveStep, HasImports, RuntimeApplied;
    ActiveStepApplies(ip, RelayStep(w, record, f).runtime, record, f);
  }

  lemma ReadyStepSays(ip: AddressParser, w: Runtime, record: Box, f: PortCalls)
    ensures ReadyStep(ip, w, record, f).ok <==> PortsApply(ip, w, record.mappings, f)
  {
    hide Filter, LoadConfig, Uses;
    UsesSays(record.mappings, IMPORT);
    UsesSays(record.mappings, PUBLISH);
  }

  /** The boxes in the state file after the one save of EnsureReady. */
  function BoxesAfterReady(current: State, record: Box, applied: bool, u: StartCalls): map<string, Box>
  {
    if !applied then SaveEffect(u.saveError, current, Put(current, record.(status := Error))).boxes
    else if u.saveLast.Lost? then current.boxes
    else current.boxes[record.id := Renewed(record)]
  }

  /** The same for a box that is already up: one save, of the renewed record or
      of the error. */
  ghost predicate ReadyPersisted(before: map<string, Box>, after: map<string, Box>, record: Box, applied: bool, u: StartCalls)
  {
    if (if applied then u.saveLast.Lost? else u.saveError.Lost?) then after == before
    else
      && after.Keys == before.Keys + {record.id}
      && (forall other | other in before && other != record.id :: after[other] == before[other])
      && var r := after[record.id];
      && r == record.(status := r.status, runtimeError := r.runtimeError)
      && r.status == (if applied then Ready else Error)
      && r.runtimeError == (if applied then "" else record.runtimeError)
  }

  lemma BoxesAfterReadySays(current: State, record: Box, applied: bool, u: StartCalls)
    ensures ReadyPersisted(current.boxes, BoxesAfterReady(current, record, applied, u), record, applied, u)
  {
  }

  /** Ensure of a box that is already up and needs no Compose call: the error is
      persisted, or the record is renewed. */
  method EnsureReady(world: World, current: State, record: Box, u: StartCalls) returns (r: Option<Box>)
    requires Prepared(world, current, record)
    modifies world
    ensures world.Valid() && Stores(world.disk.boxes, current, record)
    ensures OnlyRuntime(old(world.runtimes), world.runtimes, record.id)
    ensures var step := ReadyStep(world.ip, old(world.RuntimeOf(record.id)), record, u.ports);
            && world.RuntimeOf(record.id) == step.runtime
            && var applied := PortsApply(world.ip, old(world.RuntimeOf(record.id)), record.mappings, u.ports);
            && world.disk.boxes == BoxesAfterReady(current, record, applied, u)
            && (r.Some? <==> applied && u.saveLast.Saved? && AllFine(u.network, current, record))
    ensures r.Some? ==> Ensured(world, record, r.value)
  {
    hide Inv, Follows, Filter, LoadConfig, RenderConfig, RenderOverride, ValidSet, RuntimeApplied, FilesHold, ServesRecord,
         HasImports, HasPublications, Refreshed, HistoryInv, Covers, RelayStep, ActiveStep, AllFine, Reconnected, PortsApply;
    ReadyStepSays(world.ip, world.RuntimeOf(record.id), record, u.ports);
    ghost var held := world.RuntimeOf(record.id);
    CoversItself(current, record.id);
    ReadyStepApplies(world.ip, held, record, u.ports);
    var ok := StartImportRelay(world, record, u.ports);
    if ok {
      ok := ApplyActivePortRuntime(world, record, u.ports);
    }
    FilesHoldFramed(world.ip, held, world.RuntimeOf(record.id), record.mappings);
    if !ok {
      PersistError(world, current, record, u.saveError);
      return None;
    }
    AppliedServes(world.ip, world.RuntimeOf(record.id), record);
    ServesRenewed(world.ip, world.RuntimeOf(record.id), record);
    ok := FinishReady(world, current, record, u.network, u.saveLast);
    return if ok then Some(Renewed(record)) else None;
  }

  /** Ensure of a box that Compose has to bring up. */
  method EnsureStarted(world: World, current: State, record: Box, stopped: bool, u: StartCalls) returns (r: Option<Box>)
    requires Prepared(world, current, record)
    modifies world
    ensures world.Valid() && Stores(world.disk.boxes, current, record)
    ensures OnlyRuntime(old(world.runtimes), world.runtimes, record.id)
    ensures var starting := record.(status := if stopped then Starting else Creating);
            var w, up := old(world.RuntimeOf(record.id)), ComesUp(world.ip, old(world.RuntimeOf(record.id)), record.mappings, u);
            && world.RuntimeOf(record.id) == (if u.saveStart.Saved? then UpStep(world.ip, w, starting, u).runtime else w)
            && world.disk.boxes == BoxesAfter(current, starting, up, u)
            && (r.Some? <==> u.saveStart.Saved? && up && u.saveLast.Saved? && AllFine(u.network, current, starting))
    ensures r.Some? ==> Ensured(world, record, r.value)
  {
    hide Inv, Follows, Filter, LoadConfig, RenderConfig, RenderOverride, ValidSet, RuntimeApplied, FilesHold, ServesRecord,
         HasImports, HasPublications, Refreshed, HistoryInv, Covers, UpStep, ComesUp, AllFine, Reconnected;
    ghost var held := world.RuntimeOf(record.id);
    var starting := record.(status := if stopped then Starting else Creating);
    UpStepApplies(world.ip, held, starting, u);
    var ok := StartBox(world, current, starting, u);
    if ok {
      FilesHoldFramed(world.ip, held, world.RuntimeOf(record.id), starting.mappings);
      AppliedServes(world.ip, world.RuntimeOf(record.id), starting);
      ServesRenewed(world.ip, world.RuntimeOf(record.id), starting);
    }
    return if ok then Some(Renewed(starting)) else None;
  }

  predicate BlockAccepted(block: Block)
  {
    block.size >= 6 && block.start >= 1 && block.End() <= LAST_PORT
  }

  /** A block that Ensure accepts has room for its six services, below the last
      port. */
  lemma BlockAcceptedSays(block: Block)
    ensures BlockAccepted(block) <==> block.size >= 6 && block.start > 0 && block.start + block.size <= 0x1_0000
  {
  }

  /** No file fails to be rendered. */
  predicate Renders(ip: AddressParser, f: EnsureCalls, record: Box)
  {
    && BlockAccepted(record.ports) && !f.renderEarly
    && ValidSet(ip, record.mappings) && !f.files.writeConfig && !f.files.writeOverride
    && !f.renderLate
  }

  /** The runtime after rendering; a failing step leaves the earlier ones. */
  function RenderedRuntime(ip: AddressParser, f: EnsureCalls, w: Runtime, record: Box): Runtime
  {
    if BlockAccepted(record.ports) && !f.renderEarly then RenderFiles(ip, f.files, w, record.mappings).runtime else w
  }

  /** Render: other files, then the two port files from the recorded mappings. */
  method Render(world: World, record: Box, f: EnsureCalls) returns (ok: bool)
    modifies world`runtimes
    ensures OnlyRuntime(old(world.runtimes), world.runtimes, record.id)
    ensures ok <==> Renders(world.ip, f, record)
    ensures world.RuntimeOf(record.id) == RenderedRuntime(world.ip, f, old(world.RuntimeOf(record.id)), record)
    ensures ok ==> FilesHold(world.ip, world.RuntimeOf(record.id), record.mappings)
  {
    hide FilesHold, RenderConfig, RenderOverride, ValidSet, SortMappings;
    if record.ports.size < 6 || record.ports.start < 1 || record.ports.End() > LAST_PORT || f.renderEarly {
      return false;
    }
    ghost var was := world.RuntimeOf(record.id);
    LoadAfterRender(world.ip, record.mappings);
    ok := RenderPortFiles(world, record.id, f.files, record.mappings);
    if ok {
      RenderedHold(world.ip, f.files, was, record.mappings);
      ok := !f.renderLate;
    }
  }

  /** The box is up and neither files nor gateway call for Compose. */
  predicate NeedsNoCompose(f: EnsureCalls, current: State, spec: Spec, record: Box)
  {
    && spec.id in current.boxes && f.answer.Some? && ReadyNow(record, f.answer.value)
    && !f.changed && current.boxes[spec.id].gatewayEnabled == spec.gateway
  }

  /** What the first inspection makes of the record. */
  ghost function StartingRecord(f: EnsureCalls, current: State, spec: Spec, record: Box): Box
  {
    var stopped := spec.id in current.boxes && f.answer.Some? && f.answer.value != [] && !SomeRunning(f.answer.value);
    record.(status := if stopped then Starting else Creating)
  }

  /** A known box whose containers are all stopped is starting, any other is being
      created; nothing else of the record is touched. */
  lemma StartingRecordSays(f: EnsureCalls, current: State, spec: Spec, record: Box)
    ensures var r := StartingRecord(f, current, spec, record);
            && r == record.(status := r.status)
            && (r.status == Starting <==>
                && spec.id in current.boxes && f.answer.Some? && |f.answer.value| > 0
                && forall i | 0 <= i < |f.answer.value| :: !f.answer.value[i].running)
            && (r.status != Starting ==> r.status == Creating)
  {
  }

  /** The runtime, the persisted boxes and the success of an Ensure whose record
      is rendered. */
  ghost predicate RenderedOutcome(ip: AddressParser, f: EnsureCalls, spec: Spec, current: State, record: Box,
                                  rendered: Runtime, w: Runtime, boxes: map<string, Box>, ok: bool)
  {
    if NeedsNoCompose(f, current, spec, record) then
      var applied := PortsApply(ip, rendered, record.mappings, f.up.ports);
      && w == ReadyStep(ip, rendered, record, f.up.ports).runtime && boxes == BoxesAfterReady(current, record, applied, f.up)
      && ReadyPersisted(current.boxes, boxes, record, applied, f.up)
      && (ok <==> applied && f.up.saveLast.Saved? && AllFine(f.up.network, current, record))
    else
      var starting := StartingRecord(f, current, spec, record);
      var up := ComesUp(ip, rendered, record.mappings, f.up);
      && w == (if f.up.saveStart.Saved? then UpStep(ip, rendered, starting, f.up).runtime else rendered)
      && boxes == BoxesAfter(current, starting, up, f.up)
      && StartPersisted(current.boxes, boxes, starting, up, f.up)
      && (ok <==> f.up.saveStart.Saved? && up && f.up.saveLast.Saved? && AllFine(f.up.network, current, starting))
  }

  /** The same for a chosen block: without block, directory or a complete
      rendering nothing is saved. */
  ghost predicate EnsureOutcome(ip: AddressParser, f: EnsureCalls, spec: Spec, current: State, block: Option<Block>,
                                was: Runtime, w: Runtime, boxes: map<string, Box>, ok: bool)
  {
    var directory := f.env.directory(spec.id);
    if block.None? || directory.None? then w == was && boxes == current.boxes && !ok
    else
      var record := EnsuredRecord(f.env, Lookup(current.boxes, spec.id), spec, block.value, directory.value);
      var rendered := RenderedRuntime(ip, f, was, record);
      if !Renders(ip, f, record) then w == rendered && boxes == current.boxes && !ok
      else RenderedOutcome(ip, f, spec, current, record, rendered, w, boxes, ok)
  }

  lemma ReconciledFacts(ip: AddressParser, hash: seq<string> -> string, env: Env, before: State, after: State)
    requires Inv(hash, before) && Reconciles(env, before, after) && Reported(env.managed.value)
    ensures Inv(hash, after)
    ensures forall id | id in after.boxes :: BoxInv(id, after.boxes[id])
    ensures forall id :: RecordedMappings(after.boxes, id) == RecordedMappings(before.boxes, id)
  {
    hide Inv, Follows, Find, ReconciledStatus;
    ReconcilesSoundly(ip, hash, env, before, after, map[]);
    SoundBoxes(hash, after);
    forall id ensures RecordedMappings(after.boxes, id) == RecordedMappings(before.boxes, id) {
      assert ReconciledAt(env, env.managed.value, before.boxes, after.boxes, id, true);
    }
  }

  lemma SoundBoxes(hash: seq<string> -> string, s: State)
    requires Inv(hash, s)
    ensures forall id | id in s.boxes :: BoxInv(id, s.boxes[id])
  {
  }

  lemma StoredDisjoint(boxes: map<string, Box>, current: State, record: Box)
    requires Disjoint(current.boxes) && Stores(boxes, current, record)
    requires FreeFor(current.boxes, record.id, record.ports)
             || (record.id in current.boxes && record.ports == current.boxes[record.id].ports)
    ensures Disjoint(boxes)
  {
    hide Disjoint, FreeFor;
    if boxes != current.boxes {
      ChosenKeepsDisjoint(current.boxes, boxes[record.id]);
    }
  }

  /** Whether an Ensure leaves blocks pairwise disjoint. */
  ghost predicate KeepsBlocks(env: Env, before: map<string, Box>, after: map<string, Box>)
  {
    env.managed.Some? && ReportsRecorded(env.managed.value, before) && Disjoint(before) ==> Disjoint(after)
  }

  lemma LoadKeepsBlocks(env: Env, before: State, after: State)
    requires after == before || Reconciles(env, before, after)
    ensures KeepsBlocks(env, before.boxes, after.boxes)
  {
    hide Disjoint, ReportsRecorded, ReconciledTo;
    if after != before && ReportsRecorded(env.managed.value, before.boxes) && Disjoint(before.boxes) {
      ReconcileKeepsDisjoint(env, before, after);
    }
  }

  /** Ensure after the state was reconciled. */
  method EnsureLoaded(world: World, spec: Spec, f: EnsureCalls, current: State)
    returns (r: Option<Box>, ghost block: Option<Block>)
    requires world.Valid() && world.disk == current && Inv(world.hash, current)
    requires forall id | id in current.boxes :: BoxInv(id, current.boxes[id])
    modifies world
    ensures world.Valid()
    ensures OnlyRuntime(old(world.runtimes), world.runtimes, spec.id)
    ensures Chooses(current.boxes, spec.id, spec.ports, f.allocator, f.os, block)
    ensures EnsureOutcome(world.ip, f, spec, current, block, old(world.RuntimeOf(spec.id)), world.RuntimeOf(spec.id),
                          world.disk.boxes, r.Some?)
    ensures r.Some? ==>
              && r.value.status == Ready && r.value.runtimeError == ""
              && block.Some? && f.env.directory(spec.id).Some?
              && EnsuredAs(f.env, Lookup(current.boxes, spec.id), spec, block.value, f.env.directory(spec.id).value, r.value)
              && spec.id in world.disk.boxes && world.disk.boxes[spec.id] == r.value
              && r.value.mappings == RecordedMappings(current.boxes, spec.id)
              && ServesRecord(world.ip, world.RuntimeOf(spec.id), r.value)
              && FilesSay(world.RuntimeOf(spec.id), r.value.mappings)
    ensures spec.ports.size == 0 && Disjoint(current.boxes) ==> Disjoint(world.disk.boxes)
  {
    hide Inv, Follows, HistoryInv, ServesRecord, Chooses, Renders, RenderedRuntime, RenderedOutcome, FilesHold, HasPublications,
         Disjoint, FreeFor, Stores, EnsuredAs, FilesSay;
    var id := spec.id;
    var chosen := ChooseBlock(current.boxes, id, spec.ports, f.allocator, f.os);
    block := chosen;
    var directory := f.env.directory(id);
    if chosen.None? || directory.None? {
      return None, block;
    }
    ChosenIsFree(current.boxes, id, spec.ports, f.allocator, f.os, chosen);
    var record := EnsuredRecord(f.env, Lookup(current.boxes, id), spec, chosen.value, directory.value);
    PathSuffix(directory.value);
    ghost var was := world.RuntimeOf(id);
    var ok := Render(world, record, f);
    if !ok {
      return None, block;
    }
    RendersBlock(world.ip, f, record);
    r := EnsureRendered(world, spec, f, current, record);
    EnsuredRecordSays(f.env, Lookup(current.boxes, id), spec, chosen.value, directory.value);
    if r.Some? {
      HeldSay(world.ip, world.RuntimeOf(id), r.value);
    }
    if spec.ports.size == 0 && Disjoint(current.boxes) {
      StoredDisjoint(world.disk.boxes, current, record);
    }
  }

  lemma HeldSay(ip: AddressParser, w: Runtime, box: Box)
    requires ServesRecord(ip, w, box)
    ensures FilesSay(w, box.mappings)
  {
    hide RenderConfig, RenderOverride, ConfigSays, OverrideSays, ValidSet;
    RenderedSay(ip, box.mappings);
  }

  lemma RendersBlock(ip: AddressParser, f: EnsureCalls, record: Box)
    requires Renders(ip, f, record)
    ensures record.ports.size >= 6
  {
  }

  /** Ensure after rendering. */
  method EnsureRendered(world: World, spec: Spec, f: EnsureCalls, current: State, record: Box) returns (r: Option<Box>)
    requires Prepared(world, current, record) && record.id == spec.id
    modifies world
    ensures world.Valid() && Stores(world.disk.boxes, current, record)
    ensures OnlyRuntime(old(world.runtimes), world.runtimes, record.id)
    ensures RenderedOutcome(world.ip, f, spec, current, record, old(world.RuntimeOf(spec.id)), world.RuntimeOf(spec.id),
                            world.disk.boxes, r.Some?)
    ensures r.Some? ==>
              && r.value == Renewed(record)
              && record.id in world.disk.boxes && world.disk.boxes[record.id] == r.value
              && ServesRecord(world.ip, world.RuntimeOf(record.id), r.value)
  {
    hide Inv, HistoryInv, FilesHold, ServesRecord, HasPublications, ReadyStep, UpStep, BoxesAfter, BoxesAfterReady, AllFine,
         Stores, ReadyNow, ComesUp, PortsApply, StartPersisted, ReadyPersisted;
    var known := Lookup(current.boxes, spec.id);
    var requiresApply := f.changed || (known.Some? && known.value.gatewayEnabled != spec.gateway);
    var ready, stopped := false, false;
    if known.Some? && f.answer.Some? {
      var inspected, status := InspectReady(record, f.answer.value);
      ready, stopped := inspected, status.state == Halted;
    }
    ghost var held := world.RuntimeOf(record.id);
    if ready && !requiresApply {
      BoxesAfterReadySays(current, record, PortsApply(world.ip, held, record.mappings, f.up.ports), f.up);
      r := EnsureReady(world, current, record, f.up);
    } else {
      BoxesAfterSays(current, StartingRecord(f, current, spec, record), ComesUp(world.ip, held, record.mappings, f.up), f.up);
      r := EnsureStarted(world, current, record, stopped, f.up);
    }
  }

  /** Ensure and EnsureAllocated: the outcome after every pattern of failures. A
      success leaves the record ready and free of a runtime error, and files and
      runtime serve all recorded mappings. With an allocated block, blocks stay
      pairwise disjoint whatever fails. */
  method Ensure(world: World, spec: Spec, f: EnsureCalls)
    returns (r: Option<Box>, ghost current: Option<State>, ghost block: Option<Block>)
    requires world.Valid() && (f.env.managed.Some? ==> Reported(f.env.managed.value))
    modifies world
    ensures world.Valid()
    ensures OnlyRuntime(old(world.runtimes), world.runtimes, spec.id)
    ensures current.Some? <==> !f.lockFails && Loads(f.env, old(world.disk))
    ensures current.None? ==>
              && r.None? && world.runtimes == old(world.runtimes)
              && (world.disk == old(world.disk) || Reconciles(f.env, old(world.disk), world.disk))
    ensures current.Some? ==>
              && Reconciles(f.env, old(world.disk), current.value)
              && Chooses(current.value.boxes, spec.id, spec.ports, f.allocator, f.os, block)
              && EnsureOutcome(world.ip, f, spec, current.value, block, old(world.RuntimeOf(spec.id)),
                               world.RuntimeOf(spec.id), world.disk.boxes, r.Some?)
    ensures r.Some? ==>
              && r.value.status == Ready && r.value.runtimeError == ""
              && current.Some? && block.Some? && f.env.directory(spec.id).Some?
              && EnsuredAs(f.env, Lookup(current.value.boxes, spec.id), spec, block.value, f.env.directory(spec.id).value, r.value)
              && spec.id in world.disk.boxes && world.disk.boxes[spec.id] == r.value
              && r.value.mappings == RecordedMappings(old(world.disk.boxes), spec.id)
              && ServesRecord(world.ip, world.RuntimeOf(spec.id), r.value)
              && FilesSay(world.RuntimeOf(spec.id), r.value.mappings)
    ensures spec.ports.size == 0 ==> KeepsBlocks(f.env, old(world.disk.boxes), world.disk.boxes)
  {
    hide Inv, Follows, ServesRecord, HistoryInv, ReconciledTo, Reported, ReportsRecorded, Disjoint, RecordedMappings, Loads,
         Chooses, EnsureOutcome, EnsuredAs, FilesSay;
    current, block := None, None;
    if f.lockFails {
      return None, current, block;
    }
    ghost var before := world.disk;
    DiskIsSound(world);
    var loaded := LoadAndReconcile(world, f.env);
    LoadKeepsBlocks(f.env, before, world.disk);
    current := loaded;
    if loaded.None? {
      return None, current, block;
    }
    ReconciledFacts(world.ip, world.hash, f.env, before, loaded.value);
    r, block := EnsureLoaded(world, spec, f, loaded.value);
  }

  // ---- operations on a recorded box -----------------------------------------

  /** A recorded box after loading, with everything the operations rely on. */
  ghost predicate Loaded(world: World, current: State, id: string)
    reads world
  {
    && world.Valid() && world.disk == current && Inv(world.hash, current)
    && id in current.boxes && BoxInv(id, current.boxes[id])
  }

  lemma KnownAfter(env: Env, before: State, after: State, id: string)
    requires Reconciles(env, before, after)
    ensures id in after.boxes <==> Known(env, before, id)
  {
    hide Find, Adopted, Settled;
    assert ReconciledAt(env, env.managed.value, before.boxes, after.boxes, id, true);
  }

  /** The common start: lock, load, and look the box up. */
  method LoadBox(world: World, env: Env, lockFails: bool, id: string) returns (r: Option<State>)
    requires world.Valid() && (env.managed.Some? ==> Reported(env.managed.value))
    modifies world`disk, world`log
    ensures world.Valid()
    ensures world.disk == old(world.disk) || Reconciles(env, old(world.disk), world.disk)
    ensures r.Some? <==> !lockFails && Loads(env, old(world.disk)) && Known(env, old(world.disk), id)
    ensures r.Some? ==> Loaded(world, r.value, id) && Reconciles(env, old(world.disk), r.value)
  {
    hide Inv, HistoryInv, Reconciles, Reported, ReconciledTo, Loads, Known;
    if lockFails {
      return None;
    }
    ghost var before := world.disk;
    r := LoadAndReconcile(world, env);
    if r.Some? {
      KnownAfter(env, before, r.value, id);
    }
    if r.Some? && id !in r.value.boxes {
      return None;
    }
    if r.Some? {
      DiskIsSound(world);
      SoundBoxes(world.hash, world.disk);
    }
  }

  datatype RestartCalls = RestartCalls(lockFails: bool, env: Env, up: StartCalls)

  /** What the mappings in a config file come to in one direction. */
  function LoadedFilter(ip: AddressParser, config: Option<Body>, direction: string): Option<seq<Mapping>>
  {
    if config.None? || LoadConfig(ip, config.value).None? then None
    else Some(Filter(LoadConfig(ip, config.value).value, direction))
  }

  /** The files lead to what the record wants in each direction it uses. */
  predicate FilesServe(ip: AddressParser, w: Runtime, box: Box)
  {
    && (HasPublications(box.mappings) ==>
          && LoadedFilter(ip, w.config, PUBLISH) == Some(Filter(box.mappings, PUBLISH))
          && w.override == RenderOverride(box.mappings))
    && (HasImports(box.mappings) ==> LoadedFilter(ip, w.config, IMPORT) == Some(Filter(box.mappings, IMPORT)))
  }

  /** A restart does not render the port files again: what it brings up serves
      the record exactly when the files it finds lead to that. */
  lemma RestartServes(ip: AddressParser, held: Runtime, now: Runtime, record: Box)
    requires now.config == held.config && now.override == held.override
    requires RuntimeApplied(ip, now, record) && (HasImports(record.mappings) ==> now.relayUp)
    requires record.overridePath != "" <==> HasPublications(record.mappings)
    ensures RuntimeServes(now, Renewed(record)) <==> FilesServe(ip, held, record)
  {
    hide Filter, LoadConfig, RenderConfig, RenderOverride;
  }

  /** Files that hold the record lead to it. */
  lemma HeldFilesServe(ip: AddressParser, w: Runtime, record: Box)
    requires FilesHold(ip, w, record.mappings)
    ensures FilesServe(ip, w, record)
  {
    hide Filter, LoadConfig, RenderConfig, RenderOverride, ValidSet;
    LoadAfterRender(ip, record.mappings);
    FilterOfSorted(ip, record.mappings, PUBLISH);
    FilterOfSorted(ip, record.mappings, IMPORT);
  }

  const SMOOTH_PORTS := PortCalls(Done, Done, false, Done)

  /** A restart without any failure reports success over the config of another
      mapping set, and the one publication of the record is not served. */
  lemma RestartOverCandidate(ip: AddressParser, record: Box, w: Runtime, u: StartCalls)
    requires ip("127.0.0.1")
    requires record.mappings == [SAMPLE] && record.overridePath != "" && w.config == RenderConfig(ip, [])
    requires u.ports == SMOOTH_PORTS && u.start.ok && u.answer == Some(ServicesBeside(true))
    ensures UpStep(ip, w, record, u).ok && !RuntimeServes(UpStep(ip, w, record, u).runtime, Renewed(record))
  {
    SampleIsValid(ip);
    LoadAfterRender(ip, []);
    ServicesBesideUp(true);
    SampleFilters();
    hide Filter, LoadConfig, RenderConfig, RenderOverride, ServicesUp, LastOf;
  }

  lemma SampleFilters()
    ensures Filter([SAMPLE], PUBLISH) == [SAMPLE] && Filter([SAMPLE], IMPORT) == []
    ensures Filter([], PUBLISH) == [] && Filter([], IMPORT) == []
  {
    SelectMembers([SAMPLE], (m: Mapping) => m.direction == PUBLISH);
    FilterMembers([SAMPLE], PUBLISH);
    FilterMembers([SAMPLE], IMPORT);
    FilterMembers([], PUBLISH);
    FilterMembers([], IMPORT);
    var published := Filter([SAMPLE], PUBLISH);
    assert |published| <= 1 && SAMPLE in published;
    hide Filter;
    HasMember(Filter([], PUBLISH));
    HasMember(Filter([], IMPORT));
    HasMember(Filter([SAMPLE], IMPORT));
  }

  /** Restart. A success clears the runtime error, after publications and
      imports were applied from the files; the runtime then serves the recorded
      mappings exactly when the files lead to them, which they need not after a
      rollback that could not restore them. */
  method Restart(world: World, id: string, f: RestartCalls) returns (ok: bool, ghost current: Option<State>)
    requires world.Valid() && (f.env.managed.Some? ==> Reported(f.env.managed.value))
    modifies world
    ensures world.Valid()
    ensures current.Some? <==> !f.lockFails && Loads(f.env, old(world.disk)) && Known(f.env, old(world.disk), id)
    ensures current.None? ==> !ok && world.runtimes == old(world.runtimes)
    ensures current.Some? ==>
              && Reconciles(f.env, old(world.disk), current.value) && id in current.value.boxes
              && var starting := current.value.boxes[id].(status := Starting);
              && var up := ComesUp(world.ip, old(world.RuntimeOf(id)), starting.mappings, f.up);
              && StartPersisted(current.value.boxes, world.disk.boxes, starting, up, f.up)
              && (ok <==> f.up.saveStart.Saved? && up && f.up.saveLast.Saved? && AllFine(f.up.network, current.value, starting))
    ensures OnlyRuntime(old(world.runtimes), world.runtimes, id)
    ensures world.RuntimeOf(id).config == old(world.RuntimeOf(id)).config
    ensures world.RuntimeOf(id).override == old(world.RuntimeOf(id)).override
    ensures ok ==>
              && id in world.disk.boxes && world.disk.boxes[id].status == Ready && world.disk.boxes[id].runtimeError == ""
              && RuntimeApplied(world.ip, world.RuntimeOf(id), world.disk.boxes[id])
              && (HasImports(world.disk.boxes[id].mappings) ==> world.RuntimeOf(id).relayUp)
    ensures ok && (world.disk.boxes[id].overridePath != "" <==> HasPublications(world.disk.boxes[id].mappings)) ==>
              (RuntimeServes(world.RuntimeOf(id), world.disk.boxes[id]) <==>
               FilesServe(world.ip, old(world.RuntimeOf(id)), world.disk.boxes[id]))
  {
    hide Inv, Follows, Filter, LoadConfig, Refreshed, RefreshedAt, HistoryInv, Reconciles, Reported, Loads, Known, HasImports,
         HasPublications, RuntimeApplied, RuntimeServes, LoadedFilter, UpStep, ComesUp, StartPersisted, AllFine, Reconnected;
    ghost var held := world.RuntimeOf(id);
    var loaded := LoadBox(world, f.env, f.lockFails, id);
    current := loaded;
    if loaded.None? {
      return false, current;
    }
    var record := loaded.value.boxes[id].(status := Starting);
    UpStepApplies(world.ip, held, record, f.up);
    BoxesAfterSays(loaded.value, record, ComesUp(world.ip, held, record.mappings, f.up), f.up);
    ok := StartBox(world, loaded.value, record, f.up);
    if ok {
      RenewedApplied(world.ip, world.RuntimeOf(id), record);
      if record.overridePath != "" <==> HasPublications(record.mappings) {
        RestartServes(world.ip, held, world.RuntimeOf(id), record);
      }
    }
  }

  lemma RenewedApplied(ip: AddressParser, w: Runtime, record: Box)
    requires RuntimeApplied(ip, w, record)
    ensures RuntimeApplied(ip, w, Renewed(record))
  {
    hide Filter, LoadConfig;
  }

  datatype StopCalls = StopCalls(
    lockFails: bool,
    env: Env,
    stop: StartEffect,
    stopRelay: Call<bool>,
    saveStart: SaveResult,
    saveError: SaveResult,
    saveLast: SaveResult)

  /** The record of a box keeps its mappings and its runtime error. */
  ghost predicate KeepsRecord(before: map<string, Box>, after: map<string, Box>, id: string)
  {
    id in before ==>
      id in after && after[id].mappings == before[id].mappings && after[id].runtimeError == before[id].runtimeError
  }

  lemma LoadKeepsRecord(ip: AddressParser, hash: seq<string> -> string, env: Env, before: State, after: State, id: string)
    requires Inv(hash, before) && (env.managed.Some? ==> Reported(env.managed.value))
    requires after == before || Reconciles(env, before, after)
    ensures KeepsRecord(before.boxes, after.boxes, id)
  {
    hide Inv, Follows, Reported, ReconciledTo;
    if after != before {
      ReconcilesSoundly(ip, hash, env, before, after, map[]);
    }
  }

  /** Compose stop, then the relay of a box with imports. */
  function StopStep(w: Runtime, record: Box, f: StopCalls): Step
  {
    var down := w.(bridge := f.stop.bridge, imports := f.stop.imports);
    if f.stop.ok && HasImports(record.mappings) then RelayCall(down, false, f.stopRelay) else Step(down, f.stop.ok)
  }

  /** The state file after the saves of a stop. */
  function StateAfterStop(current: State, stopping: Box, down: bool, f: StopCalls): State
  {
    var first := SaveEffect(f.saveStart, current, Put(current, stopping));
    if !f.saveStart.Saved? then first
    else if !down then SaveEffect(f.saveError, first, Put(current, stopping.(status := Error)))
    else SaveEffect(f.saveLast, first, Put(current, stopping.(status := Stopped)))
  }

  /** The Compose call succeeds, and so does stopping the relay that imports
      need. */
  ghost predicate GoesDown(mappings: seq<Mapping>, f: StopCalls)
  {
    f.stop.ok && (Uses(mappings, IMPORT) ==> f.stopRelay.Done?)
  }

  lemma StopStepSays(w: Runtime, record: Box, f: StopCalls)
    ensures var step := StopStep(w, record, f);
            && (step.ok <==> GoesDown(record.mappings, f))
            && step.runtime.config == w.config && step.runtime.override == w.override
            && step.runtime.bridge == f.stop.bridge && step.runtime.imports == f.stop.imports
            && (step.runtime.relayUp <==> if f.stop.ok && Uses(record.mappings, IMPORT)
                                          then f.stopRelay.Failed? && f.stopRelay.left else w.relayUp)
  {
    hide Filter;
    UsesSays(record.mappings, IMPORT);
  }

  /** What a stop leaves of the state: of the record only the status changes,
      according to the last save that was not lost. */
  ghost predicate StopPersisted(before: State, after: State, id: string, down: bool, f: StopCalls)
    requires id in before.boxes
  {
    after.connections == before.connections
    && if f.saveStart.Lost? then after == before
       else
         && after.boxes.Keys == before.boxes.Keys
         && (forall other | other in before.boxes && other != id :: after.boxes[other] == before.boxes[other])
         && var r := after.boxes[id];
         && r == before.boxes[id].(status := r.status)
         && (r.status == Stopped <== f.saveStart.Saved? && down && !f.saveLast.Lost?)
         && (r.status == Error <== f.saveStart.Saved? && !down && !f.saveError.Lost?)
         && (r.status == Stopping <== f.saveStart.Torn? || (if down then f.saveLast.Lost? else f.saveError.Lost?))
  }

  lemma StateAfterStopSays(current: State, id: string, down: bool, f: StopCalls)
    requires id in current.boxes && current.boxes[id].id == id
    ensures StopPersisted(current, StateAfterStop(current, current.boxes[id].(status := Stopping), down, f), id, down, f)
  {
  }

  method StopRuntime(world: World, record: Box, f: StopCalls) returns (ok: bool)
    modifies world`runtimes
    ensures OnlyRuntime(old(world.runtimes), world.runtimes, record.id)
    ensures Step(world.RuntimeOf(record.id), ok) == StopStep(old(world.RuntimeOf(record.id)), record, f)
  {
    hide Filter;
    ok := Lifecycle(world, record.id, f.stop);
    if ok && HasImports(record.mappings) {
      var relay := RelayCall(world.RuntimeOf(record.id), false, f.stopRelay);
      world.SetRuntime(record.id, relay.runtime);
      ok := relay.ok;
    }
  }

  /** Stop after the state was loaded. */
  method StopLoaded(world: World, current: State, id: string, f: StopCalls) returns (ok: bool)
    requires Loaded(world, current, id)
    modifies world
    ensures world.Valid()
    ensures OnlyRuntime(old(world.runtimes), world.runtimes, id)
    ensures var stopping := current.boxes[id].(status := Stopping);
            var step := StopStep(old(world.RuntimeOf(id)), stopping, f);
            && world.RuntimeOf(id) == (if f.saveStart.Saved? then step.runtime else old(world.RuntimeOf(id)))
            && world.disk == StateAfterStop(current, stopping, step.ok, f)
            && (ok <==> f.saveStart.Saved? && step.ok && f.saveLast.Saved?)
  {
    hide Inv, Follows, HistoryInv, StopStep, Covers;
    CoversItself(current, id);
    var record := current.boxes[id].(status := Stopping);
    ok := SaveBox(world, current, record, f.saveStart);
    if !ok {
      return;
    }
    var stopping := Put(current, record);
    ok := StopRuntime(world, record, f);
    if !ok {
      PersistError(world, stopping, record, f.saveError);
      assert Put(stopping, record.(status := Error)) == Put(current, record.(status := Error));
      return;
    }
    ok := SaveBox(world, stopping, record.(status := Stopped), f.saveLast);
    assert Put(stopping, record.(status := Stopped)) == Put(current, record.(status := Stopped));
  }

  /** On every path the record keeps mappings and runtime error, and the files
      stay; a success means stopped, with the relay down. */
  lemma StopKeeps(w: Runtime, current: State, id: string, f: StopCalls)
    requires id in current.boxes && current.boxes[id].id == id
    ensures var stopping := current.boxes[id].(status := Stopping);
            var step := StopStep(w, stopping, f);
            var after := StateAfterStop(current, stopping, step.ok, f);
            && KeepsRecord(current.boxes, after.boxes, id)
            && step.runtime.config == w.config && step.runtime.override == w.override
            && (f.saveStart.Saved? && step.ok && f.saveLast.Saved? ==>
                  after.boxes[id].status == Stopped && (HasImports(after.boxes[id].mappings) ==> !step.runtime.relayUp))
  {
    hide HasImports;
  }

  /** Stop. The record keeps its mappings and its runtime error. */
  method Stop(world: World, id: string, f: StopCalls) returns (ok: bool, ghost current: Option<State>)
    requires world.Valid() && (f.env.managed.Some? ==> Reported(f.env.managed.value))
    modifies world
    ensures world.Valid()
    ensures current.Some? <==> !f.lockFails && Loads(f.env, old(world.disk)) && Known(f.env, old(world.disk), id)
    ensures current.None? ==> !ok && world.runtimes == old(world.runtimes)
    ensures current.Some? ==>
              && Reconciles(f.env, old(world.disk), current.value) && id in current.value.boxes
              && var down := GoesDown(current.value.boxes[id].mappings, f);
              && StopPersisted(current.value, world.disk, id, down, f)
              && (ok <==> f.saveStart.Saved? && down && f.saveLast.Saved?)
    ensures OnlyRuntime(old(world.runtimes), world.runtimes, id)
    ensures world.RuntimeOf(id).config == old(world.RuntimeOf(id)).config
    ensures world.RuntimeOf(id).override == old(world.RuntimeOf(id)).override
    ensures KeepsRecord(old(world.disk.boxes), world.disk.boxes, id)
    ensures ok ==>
              && id in world.disk.boxes && world.disk.boxes[id].status == Stopped
              && (HasImports(world.disk.boxes[id].mappings) ==> !world.RuntimeOf(id).relayUp)
  {
    hide Inv, Follows, Filter, HistoryInv, Reconciles, Reported, Loads, Known, HasImports, HasPublications;
    ghost var before := world.disk;
    DiskIsSound(world);
    var loaded := LoadBox(world, f.env, f.lockFails, id);
    LoadKeepsRecord(world.ip, world.hash, f.env, before, world.disk, id);
    current := loaded;
    if loaded.None? {
      return false, current;
    }
    StopKeeps(world.RuntimeOf(id), loaded.value, id, f);
    StopStepSays(world.RuntimeOf(id), loaded.value.boxes[id].(status := Stopping), f);
    StateAfterStopSays(loaded.value, id, GoesDown(loaded.value.boxes[id].mappings, f), f);
    hide StateAfterStop, StopStep, StopPersisted, GoesDown;
    ok := StopLoaded(world, loaded.value, id, f);
  }

  /** The status that the containers give a box: up, without any that runs, or
      in between. A runtime error is never hidden behind Ready. */
  ghost predicate StatusSays(answer: seq<ContainerStatus>, box: Box, status: Status)
  {
    if BoxIsUp(answer, box.mappings) then status == (if box.runtimeError != "" then Error else Ready)
    else status == (if exists i :: 0 <= i < |answer| && answer[i].running then Error else Stopped)
  }

  lemma InspectedSays(box: Box, answer: seq<ContainerStatus>, status: ProjectStatus, ready: bool)
    requires Derived(status, answer) && (ready <==> ReadyNow(box, answer))
    ensures StatusSays(answer, box, InspectedStatus(ready, status, box))
  {
    hide ReadyNow, BoxIsUp;
    BoxIsUpSays(box, answer);
  }

  /** Inspect: the status of the record follows the containers of the box. */
  method Inspect(world: World, id: string, env: Env, lockFails: bool, answer: Option<seq<ContainerStatus>>, save: SaveResult)
    returns (r: Option<Box>, ghost current: Option<State>)
    requires world.Valid() && (env.managed.Some? ==> Reported(env.managed.value))
    modifies world`disk, world`log
    ensures world.Valid()
    ensures KeepsRecord(old(world.disk.boxes), world.disk.boxes, id)
    ensures current.Some? <==> !lockFails && Loads(env, old(world.disk)) && Known(env, old(world.disk), id)
    ensures current.None? ==> r.None? && (world.disk == old(world.disk) || Reconciles(env, old(world.disk), world.disk))
    ensures current.Some? ==>
              && Reconciles(env, old(world.disk), current.value) && id in current.value.boxes
              && (r.Some? <==> answer.Some? && save.Saved?)
    ensures current.Some? && answer.None? ==> world.disk == current.value
    ensures current.Some? && answer.Some? ==> exists status ::
              && StatusSays(answer.value, current.value.boxes[id], status)
              && world.disk == SaveEffect(save, current.value, Put(current.value, current.value.boxes[id].(status := status)))
              && (r.Some? ==> r.value == current.value.boxes[id].(status := status))
  {
    hide Inv, Follows, Filter, HistoryInv, Reconciles, Reported, HasPublications, ServicesUp, BridgeReady, Derived, Loads, Known,
         StatusSays, BoxIsUp;
    ghost var before := world.disk;
    DiskIsSound(world);
    var loaded := LoadBox(world, env, lockFails, id);
    LoadKeepsRecord(world.ip, world.hash, env, before, world.disk, id);
    current := loaded;
    if loaded.None? || answer.None? {
      return None, current;
    }
    var record := loaded.value.boxes[id];
    var ready, status := InspectReady(record, answer.value);
    var derived := if ready then Ready else if !status.present || status.state == Halted then Stopped else Error;
    if derived == Ready && record.runtimeError != "" {
      derived := Error;
    }
    assert derived == InspectedStatus(ready, status, record);
    InspectedSays(record, answer.value, status, ready);
    record := record.(status := derived);
    var ok := SaveBox(world, loaded.value, record, save);
    return if ok then Some(record) else None, current;
  }

  /** Touch changes nothing of the reconciled state but the time of last use. */
  method Touch(world: World, id: string, env: Env, lockFails: bool, now: int, save: SaveResult)
    returns (ok: bool, ghost current: Option<State>)
    requires world.Valid() && (env.managed.Some? ==> Reported(env.managed.value))
    modifies world`disk, world`log
    ensures world.Valid()
    ensures current.Some? <==> !lockFails && Loads(env, old(world.disk)) && Known(env, old(world.disk), id)
    ensures current.None? ==> !ok && (world.disk == old(world.disk) || Reconciles(env, old(world.disk), world.disk))
    ensures current.Some? ==>
              && Reconciles(env, old(world.disk), current.value) && id in current.value.boxes && (ok <==> save.Saved?)
              && world.disk == SaveEffect(save, current.value,
                                          State(current.value.boxes[id := current.value.boxes[id].(lastUsed := now)],
                                                current.value.connections))
  {
    hide Inv, Follows, HistoryInv, Reconciles, Reported, Loads, Known;
    var loaded := LoadBox(world, env, lockFails, id);
    current := loaded;
    if loaded.None? {
      return false, current;
    }
    ok := SaveBox(world, loaded.value, loaded.value.boxes[id].(lastUsed := now), save);
  }

  // ---- Destroy --------------------------------------------------------------

  /** The two port files of a box. */
  datatype Files = Files(config: Option<Body>, override: Option<Body>)

  datatype DestroyCalls = DestroyCalls(
    lockFails: bool,
    env: Env,
    down: Call<Bridge>,
    stopRelay: Call<bool>,
    network: NetworkCalls,
    removeFiles: Call<Files>,
    saveStart: SaveResult,
    saveError: SaveResult,
    saveLast: SaveResult)

  /** Connections after a box was taken out: those without it are unchanged,
      those with at least two others keep exactly these, the rest are gone. */
  ghost predicate Forgotten(before: Connections, after: Connections, id: string)
  {
    forall c: string :: ForgottenAt(before, after, id, c)
  }

  ghost predicate ForgottenAt(before: Connections, after: Connections, id: string, c: string)
  {
    && (c in after <==> c in before && (id !in before[c].members || |Others(before[c].members, id)| >= 2))
    && (c in after && c in before ==>
          if id !in before[c].members then after[c] == before[c]
          else
            && after[c].members == Others(before[c].members, id) && id !in after[c].members
            && after[c].id == before[c].id && after[c].name == before[c].name && after[c].version == before[c].version)
  }

  lemma LeftMeansForgotten(calls: NetworkCalls, boxes: map<string, Box>, before: Connections, after: Connections, id: string)
    requires forall c: string :: LeftAt(calls, boxes, before, after, id, c, true)
    ensures Forgotten(before, after, id)
    ensures forall c | c in after :: id !in after[c].members
  {
    hide ReconcileError, Others, Complete;
    forall c: string ensures ForgottenAt(before, after, id, c) {
      assert LeftAt(calls, boxes, before, after, id, c, true);
      if c in before { OthersSay(before[c].members, id); }
    }
    forall c | c in after ensures id !in after[c].members { assert ForgottenAt(before, after, id, c); }
  }

  lemma DestroyedFollows(ip: AddressParser, disk: State, runtimes: map<string, Runtime>, boxes: map<string, Box>,
                         connections: Connections, id: string)
    requires Covers(disk, State(boxes, connections), id) && TornDown(RuntimeIn(runtimes, id))
    ensures Follows(ip, disk, Entry(Destroyed(id), State(boxes - {id}, connections), runtimes))
  {
    hide RuntimeApplied;
  }

  /** Compose down, relay stop and removal of the files. */
  method TearDown(world: World, record: Box, f: DestroyCalls) returns (ok: bool)
    modifies world`runtimes
    ensures OnlyRuntime(old(world.runtimes), world.runtimes, record.id)
    ensures ok <==> TearsDown(record.mappings, f)
    ensures f.down.Failed? ==> world.RuntimeOf(record.id) == old(world.RuntimeOf(record.id)).(bridge := f.down.left)
    ensures f.down.Done? ==> world.RuntimeOf(record.id) ==
                             old(world.RuntimeOf(record.id)).(bridge := BridgeDown, imports := [],
                               relayUp := if Uses(record.mappings, IMPORT) then f.stopRelay.Failed? && f.stopRelay.left
                                          else old(world.RuntimeOf(record.id)).relayUp)
  {
    hide Filter, Uses;
    UsesSays(record.mappings, IMPORT);
    var id := record.id;
    match f.down {
      case Failed(left) =>
        world.SetRuntime(id, world.RuntimeOf(id).(bridge := left));
        return false;
      case Done =>
        world.SetRuntime(id, world.RuntimeOf(id).(bridge := BridgeDown, imports := []));
    }
    ok := true;
    if HasImports(record.mappings) {
      var relay := RelayCall(world.RuntimeOf(id), false, f.stopRelay);
      world.SetRuntime(id, relay.runtime);
      ok := relay.ok;
    }
  }

  /** Compose takes the containers down, and the relay of a box with imports is
      stopped. */
  ghost predicate TearsDown(mappings: seq<Mapping>, f: DestroyCalls)
  {
    f.down.Done? && (Uses(mappings, IMPORT) ==> f.stopRelay.Done?)
  }

  /** No call for a connection of the box fails, and its files are removed. */
  ghost predicate ForgetsBox(f: DestroyCalls, current: State, id: string)
    requires id in current.boxes
  {
    var boxes := current.boxes[id := current.boxes[id].(status := Destroying)];
    && (forall c | c in current.connections :: LeavesFine(f.network, boxes, current.connections, id, c))
    && f.env.directory(id).Some? && f.removeFiles.Done?
  }

  /** The boxes after every pattern of failures: the record is only marked until
      everything else is gone. */
  ghost predicate DestroyPersisted(current: State, after: State, id: string, f: DestroyCalls)
    requires id in current.boxes
  {
    var torn := TearsDown(current.boxes[id].mappings, f);
    var gone := f.saveStart.Saved? && torn && ForgetsBox(f, current, id) && !f.saveLast.Lost?;
    && (gone ==> after.boxes == current.boxes - {id} && Forgotten(current.connections, after.connections, id))
    && (!gone ==>
          && after.connections == current.connections
          && if f.saveStart.Lost? then after.boxes == current.boxes
             else after.boxes == current.boxes[id := current.boxes[id].(
                    status := if f.saveStart.Saved? && !torn && !f.saveError.Lost? then Error else Destroying)])
  }

  /** The runtime: a failing call leaves what it leaves, and the calls behind it
      are not made. */
  ghost predicate DestroyedRuntime(current: State, w: Runtime, after: Runtime, id: string, f: DestroyCalls)
    requires id in current.boxes
  {
    if !f.saveStart.Saved? then after == w
    else
      && (f.down.Done? ==> after.bridge == BridgeDown && after.imports == [])
      && (f.down.Failed? ==> after == w.(bridge := f.down.left))
      && (f.down.Done? && Uses(current.boxes[id].mappings, IMPORT) ==> after.relayUp == (f.stopRelay.Failed? && f.stopRelay.left))
      && (!Uses(current.boxes[id].mappings, IMPORT) ==> after.relayUp == w.relayUp)
      && (!TearsDown(current.boxes[id].mappings, f) ==> after.config == w.config && after.override == w.override)
      && (TearsDown(current.boxes[id].mappings, f) && !ForgetsBox(f, current, id) ==>
            || (after.config == w.config && after.override == w.override)
            || (f.removeFiles.Failed? && Files(after.config, after.override) == f.removeFiles.left))
      && (TearsDown(current.boxes[id].mappings, f) && ForgetsBox(f, current, id) ==> after.config == after.override == None)
  }

  /** When destroying a loaded box succeeds. */
  ghost predicate Destroys(f: DestroyCalls, current: State, id: string)
    requires id in current.boxes
  {
    var boxes := current.boxes[id := current.boxes[id].(status := Destroying)];
    && f.saveStart.Saved? && f.down.Done?
    && (HasImports(current.boxes[id].mappings) ==> f.stopRelay.Done?)
    && (forall c | c in current.connections :: LeavesFine(f.network, boxes, current.connections, id, c))
    && f.env.directory(id).Some? && f.removeFiles.Done? && f.saveLast.Saved?
  }

  /** Destroy after the state was loaded. */
  method DestroyLoaded(world: World, current: State, id: string, f: DestroyCalls) returns (ok: bool)
    requires Loaded(world, current, id)
    modifies world
    ensures world.Valid()
    ensures OnlyRuntime(old(world.runtimes), world.runtimes, id)
    ensures ok ==> world.disk.boxes == current.boxes - {id}
    ensures ok ==> Forgotten(current.connections, world.disk.connections, id)
    ensures ok ==> forall c | c in world.disk.connections :: id !in world.disk.connections[c].members
    ensures ok ==> world.RuntimeOf(id) ==
                   NO_RUNTIME.(relayUp := old(world.RuntimeOf(id)).relayUp && !HasImports(current.boxes[id].mappings))
    ensures ok <==> Destroys(f, current, id)
    ensures DestroyPersisted(current, world.disk, id, f)
    ensures DestroyedRuntime(current, old(world.RuntimeOf(id)), world.RuntimeOf(id), id, f)
    ensures !ok && !f.saveLast.Torn? ==>
              world.disk.connections == current.connections && KeepsRecord(current.boxes, world.disk.boxes, id)
  {
    hide Inv, Follows, Filter, HistoryInv, LeftAt, Forgotten, LeavesFine, Uses;
    UsesSays(current.boxes[id].mappings, IMPORT);
    var record := current.boxes[id].(status := Destroying);
    ok := SaveBox(world, current, record, f.saveStart);
    if !ok {
      return;
    }
    var destroying := Put(current, record);
    ok := TearDown(world, record, f);
    if !ok {
      PersistError(world, destroying, record, f.saveError);
      return;
    }
    var connections: Connections;
    ok, connections := RemoveBox(f.network, destroying.boxes, destroying.connections, id);
    if !ok || f.env.directory(id).None? {
      return false;
    }
    if f.removeFiles.Failed? {
      world.SetRuntime(id, world.RuntimeOf(id).(config := f.removeFiles.left.config, override := f.removeFiles.left.override));
      return false;
    }
    world.SetRuntime(id, world.RuntimeOf(id).(config := None, override := None));
    LeftMeansForgotten(f.network, destroying.boxes, current.connections, connections, id);
    RemovedKeepsInv(world.hash, f.network, destroying, connections, id);
    DestroyedFollows(world.ip, world.disk, world.runtimes, destroying.boxes, connections, id);
    assert destroying.boxes - {id} == current.boxes - {id};
    ok := world.Save(State(destroying.boxes - {id}, connections), f.saveLast, Destroyed(id));
  }

  /** Destroy. A success leaves no trace of the box in boxes, connections and
      runtime, and leaves the connections without it unchanged. */
  method Destroy(world: World, id: string, f: DestroyCalls) returns (ok: bool, ghost current: Option<State>)
    requires world.Valid() && (f.env.managed.Some? ==> Reported(f.env.managed.value))
    modifies world
    ensures world.Valid()
    ensures current.Some? <==> !f.lockFails && Loads(f.env, old(world.disk)) && Known(f.env, old(world.disk), id)
    ensures current.None? ==> !ok && world.runtimes == old(world.runtimes)
    ensures current.Some? ==>
              && Reconciles(f.env, old(world.disk), current.value) && id in current.value.boxes
              && (ok <==> Destroys(f, current.value, id))
              && DestroyPersisted(current.value, world.disk, id, f)
              && DestroyedRuntime(current.value, old(world.RuntimeOf(id)), world.RuntimeOf(id), id, f)
    ensures OnlyRuntime(old(world.runtimes), world.runtimes, id)
    ensures ok ==>
              && id !in world.disk.boxes
              && (forall c | c in world.disk.connections :: id !in world.disk.connections[c].members)
              && Forgotten(old(world.disk.connections), world.disk.connections, id)
              && world.RuntimeOf(id) == NO_RUNTIME.(relayUp := world.RuntimeOf(id).relayUp)
    ensures !ok && !f.saveLast.Torn? ==>
              world.disk.connections == old(world.disk.connections)
              && KeepsRecord(old(world.disk.boxes), world.disk.boxes, id)
  {
    hide Inv, Follows, Filter, HistoryInv, HasImports, Forgotten, Reported, ReconciledTo, Loads, Known, Destroys, TearsDown,
         ForgetsBox, DestroyedRuntime;
    ghost var before := world.disk;
    DiskIsSound(world);
    var loaded := LoadBox(world, f.env, f.lockFails, id);
    LoadKeepsRecord(world.ip, world.hash, f.env, before, world.disk, id);
    current := loaded;
    if loaded.None? {
      return false, current;
    }
    ok := DestroyLoaded(world, loaded.value, id, f);
  }
}
