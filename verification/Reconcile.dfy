/** Loading the state and bringing it in line with the managed containers, the
    first step of every operation (internal/sandbox/manager.go). */
module Reconcile {
  import opened Ordering
  import opened PortForward
  import opened Allocator
  import opened Records
  import opened Host
  import opened ComposeStatus

  /** What the outside answers while the state is loaded: a failing load, the
      listing of managed containers, the directory of a box unless its
      identifier is refused, the last element of a worktree path, the clock,
      and how the save ends. */
  datatype Env = Env(
    loadFails: bool,
    managed: Option<seq<ManagedProject>>,
    directory: string -> Option<string>,
    baseName: string -> string,
    now: int,
    save: SaveResult)

  function Find(managed: seq<ManagedProject>, id: string): Option<ManagedProject>
  {
    if managed == [] then None
    else if managed[|managed| - 1].id == id then Some(managed[|managed| - 1])
    else Find(managed[..|managed| - 1], id)
  }

  function Lookup(boxes: map<string, Box>, id: string): Option<Box>
  {
    if id in boxes then Some(boxes[id]) else None
  }

  /** A record that the listing shows without the state file knowing it. */
  function NewRecord(env: Env, m: ManagedProject): Box
  {
    var directory := env.directory(m.id);
    Box(m.id, env.baseName(m.worktree), m.worktree, m.projectName, Stopped, Block(0, 0),
        if directory.Some? then directory.value else "", m.gatewayEnabled, "", "", "", [], "", env.now)
  }

  function Adopted(env: Env, known: Option<Box>, m: ManagedProject): Box
  {
    var record := if known.Some? then known.value else NewRecord(env, m);
    var next := record.(worktree := m.worktree, projectName := m.projectName, gatewayEnabled := m.gatewayEnabled,
                        ports := if m.ports.size != 0 then m.ports else record.ports);
    next.(status := ReconciledStatus(Some(m), next))
  }

  function Settled(box: Box): Box { box.(status := ReconciledStatus(None, box)) }

  /** One box of the state; `closed` tells whether the second loop is done. */
  ghost predicate ReconciledAt(env: Env, managed: seq<ManagedProject>, before: map<string, Box>, after: map<string, Box>,
                               id: string, closed: bool)
  {
    var shown := Find(managed, id);
    && (id in after <==> id in before || shown.Some?)
    && (id in after ==>
          if shown.Some? then after[id] == Adopted(env, Lookup(before, id), shown.value)
          else id in before && after[id] == if closed then Settled(before[id]) else before[id])
  }

  ghost predicate ReconciledTo(env: Env, managed: seq<ManagedProject>, before: map<string, Box>, after: map<string, Box>,
                               closed: bool)
  {
    forall id: string :: ReconciledAt(env, managed, before, after, id, closed)
  }

  /** What loadAndReconcile makes of a state: only boxes change. */
  ghost predicate Reconciles(env: Env, before: State, after: State)
  {
    env.managed.Some? && after.connections == before.connections
    && ReconciledTo(env, env.managed.value, before.boxes, after.boxes, true)
  }

  /** When loading succeeds: every new box of the listing has a directory, and
      the reconciled state is saved. */
  ghost predicate Loads(env: Env, before: State)
  {
    && !env.loadFails && env.managed.Some? && env.save.Saved?
    && forall i | 0 <= i < |env.managed.value| ::
         env.managed.value[i].id in before.boxes || env.directory(env.managed.value[i].id).Some?
  }

  /** A box that the state file or the listing knows. */
  ghost predicate Known(env: Env, before: State, id: string)
  {
    id in before.boxes || (env.managed.Some? && Find(env.managed.value, id).Some?)
  }

  // ---- what reconciling does to a box, field by field -----------------------

  /** What a project shows to be running: its services are healthy, and so is
      its portbridge when the box publishes something. */
  ghost predicate ShownUp(m: ManagedProject, box: Box)
  {
    m.state == Running && m.healthy
    && ((exists p :: p in box.mappings && p.direction == PUBLISH) ==> m.portBridgeRunning)
  }

  /** A listed box has its worktree, project, gateway and, if reported, its block
      from the listing; an error keeps it from being ready. */
  ghost predicate FollowsListing(m: ManagedProject, r: Box)
  {
    && r.id == m.id
    && r.worktree == m.worktree && r.projectName == m.projectName && r.gatewayEnabled == m.gatewayEnabled
    && (m.ports.size != 0 ==> r.ports == m.ports)
    && r.status == (if ShownUp(m, r) then (if r.runtimeError == "" then Ready else Error)
                    else if m.state == Halted then Stopped else Error)
  }

  /** What the state file knew of a listed box beyond that stays. */
  ghost predicate KeepsKnown(before: Box, m: ManagedProject, r: Box)
  {
    && r.name == before.name && r.directory == before.directory && r.lastUsed == before.lastUsed
    && r.mappings == before.mappings && r.runtimeError == before.runtimeError
    && r.configPath == before.configPath && r.overridePath == before.overridePath && r.tokenPath == before.tokenPath
    && (m.ports.size == 0 ==> r.ports == before.ports)
  }

  /** A box the state file did not know starts without mappings. */
  ghost predicate StartsFresh(env: Env, m: ManagedProject, r: Box)
  {
    && r.name == env.baseName(m.worktree) && r.lastUsed == env.now
    && env.directory(m.id) == Some(r.directory)
    && r.mappings == [] && r.runtimeError == "" && r.configPath == r.overridePath == r.tokenPath == ""
    && (m.ports.size == 0 ==> r.ports == Block(0, 0))
  }

  /** A box that is not listed is stopped, unless it is still being created. */
  ghost predicate FollowsAbsence(before: Box, r: Box)
  {
    r == before.(status := r.status) && r.status == if before.status == Creating then Creating else Stopped
  }

  /** One box of a reconciled state. */
  ghost predicate BoxSays(env: Env, before: map<string, Box>, after: map<string, Box>, id: string)
    requires env.managed.Some?
  {
    && (forall i | 0 <= i < |env.managed.value| && env.managed.value[i].id == id ::
          && id in after && FollowsListing(env.managed.value[i], after[id])
          && (id in before ==> KeepsKnown(before[id], env.managed.value[i], after[id]))
          && (id !in before ==> StartsFresh(env, env.managed.value[i], after[id])))
    && ((forall i | 0 <= i < |env.managed.value| :: env.managed.value[i].id != id) ==>
          && (id in after <==> id in before)
          && (id in before ==> FollowsAbsence(before[id], after[id])))
  }

  /** The reconciled state, box by box. */
  ghost predicate ReconcilesAs(env: Env, before: State, after: State)
  {
    env.managed.Some? && after.connections == before.connections
    && forall id: string :: BoxSays(env, before.boxes, after.boxes, id)
  }

  lemma PublishesSays(ms: seq<Mapping>)
    ensures (exists p :: p in ms && p.direction == PUBLISH) <==> Filter(ms, PUBLISH) != []
  {
    FilterMembers(ms, PUBLISH);
    HasMember(Filter(ms, PUBLISH));
    hide Filter;
  }

  lemma AdoptedSays(env: Env, known: Option<Box>, m: ManagedProject)
    requires known.Some? ==> known.value.id == m.id
    requires known.None? ==> env.directory(m.id).Some?
    requires m.state != Absent
    ensures FollowsListing(m, Adopted(env, known, m))
    ensures known.Some? ==> KeepsKnown(known.value, m, Adopted(env, known, m))
    ensures known.None? ==> StartsFresh(env, m, Adopted(env, known, m))
  {
    hide Filter;
    PublishesSays(Adopted(env, known, m).mappings);
  }

  lemma {:induction false} FindIs(managed: seq<ManagedProject>, i: nat)
    requires i < |managed| && forall j, k | 0 <= j < k < |managed| :: managed[j].id != managed[k].id
    ensures Find(managed, managed[i].id) == Some(managed[i])
  {
    FoundIn(managed, managed[i].id);
  }

  /** What a successful load promises, field by field. */
  lemma ReconcilesSays(hash: seq<string> -> string, env: Env, before: State, after: State)
    requires Inv(hash, before) && Reconciles(env, before, after) && Loads(env, before) && Reported(env.managed.value)
    ensures ReconcilesAs(env, before, after)
  {
    hide Adopted, ConnectionInv, NamesUnique, FollowsListing, KeepsKnown, StartsFresh, Find;
    var managed := env.managed.value;
    forall id: string ensures BoxSays(env, before.boxes, after.boxes, id) {
      assert ReconciledAt(env, managed, before.boxes, after.boxes, id, true);
      FoundIn(managed, id);
      assert id in before.boxes ==> BoxInv(id, before.boxes[id]);
      forall i | 0 <= i < |managed| && managed[i].id == id
        ensures id in after.boxes && FollowsListing(managed[i], after.boxes[id])
        ensures id in before.boxes ==> KeepsKnown(before.boxes[id], managed[i], after.boxes[id])
        ensures id !in before.boxes ==> StartsFresh(env, managed[i], after.boxes[id])
      {
        FindIs(managed, i);
        AdoptedSays(env, Lookup(before.boxes, id), managed[i]);
      }
    }
  }

  // ---- reconciled states are sound ------------------------------------------

  lemma AdoptedInv(env: Env, id: string, known: Option<Box>, m: ManagedProject)
    requires m.id == id && m.ports.size >= 0 && (known.Some? ==> BoxInv(id, known.value))
    ensures BoxInv(id, Adopted(env, known, m))
    ensures known.Some? ==> Adopted(env, known, m).runtimeError == known.value.runtimeError
    ensures known.Some? ==> Adopted(env, known, m).mappings == known.value.mappings
  {
    hide Filter;
  }

  lemma {:induction false} FoundIn(managed: seq<ManagedProject>, id: string)
    ensures Find(managed, id).Some? ==> Find(managed, id).value.id == id && Find(managed, id).value in managed
    ensures Find(managed, id).None? ==> forall i | 0 <= i < |managed| :: managed[i].id != id
  {
    if managed != [] {
      FoundIn(managed[..|managed| - 1], id);
      assert managed == managed[..|managed| - 1] + [managed[|managed| - 1]];
    }
  }

  lemma ReconcilesSoundly(ip: AddressParser, hash: seq<string> -> string, env: Env, before: State, after: State,
                          runtimes: map<string, Runtime>)
    requires Inv(hash, before) && Reconciles(env, before, after) && Reported(env.managed.value)
    ensures Inv(hash, after) && Follows(ip, before, Entry(Plain, after, runtimes))
    ensures forall id | id in before.boxes ::
              id in after.boxes && after.boxes[id].mappings == before.boxes[id].mappings
              && after.boxes[id].runtimeError == before.boxes[id].runtimeError
  {
    hide Adopted, ConnectionInv, Find;
    forall id | id in after.boxes
      ensures BoxInv(id, after.boxes[id])
      ensures id in before.boxes ==> after.boxes[id].runtimeError == before.boxes[id].runtimeError
      ensures id in before.boxes ==> after.boxes[id].mappings == before.boxes[id].mappings
    {
      BoxReconciledSoundly(env, before.boxes, after.boxes, id);
    }
    forall id | id in before.boxes ensures id in after.boxes {
      assert ReconciledAt(env, env.managed.value, before.boxes, after.boxes, id, true);
    }
    forall id | id in after.connections ensures ConnectionInv(hash, after.boxes, id, after.connections[id]) {
      MoreBoxesKeep(hash, before.boxes, after.boxes, id, before.connections[id]);
    }
  }

  lemma BoxReconciledSoundly(env: Env, before: map<string, Box>, after: map<string, Box>, id: string)
    requires env.managed.Some? && Reported(env.managed.value) && id in after
    requires ReconciledTo(env, env.managed.value, before, after, true)
    requires id in before ==> BoxInv(id, before[id])
    ensures BoxInv(id, after[id])
    ensures id in before ==> after[id].runtimeError == before[id].runtimeError && after[id].mappings == before[id].mappings
  {
    hide Adopted, Find;
    assert ReconciledAt(env, env.managed.value, before, after, id, true);
    FoundIn(env.managed.value, id);
    if Find(env.managed.value, id).Some? {
      AdoptedInv(env, id, Lookup(before, id), Find(env.managed.value, id).value);
    }
  }

  lemma MoreBoxesKeep(hash: seq<string> -> string, boxes: map<string, Box>, more: map<string, Box>, key: string,
                      c: Connection)
    requires ConnectionInv(hash, boxes, key, c) && forall id | id in boxes :: id in more
    ensures ConnectionInv(hash, more, key, c)
  {
  }

  // ---- blocks ---------------------------------------------------------------

  /** The recorded blocks of different boxes share no port. */
  ghost predicate Disjoint(boxes: map<string, Box>)
  {
    forall a, b | a in boxes && b in boxes && a != b :: Apart(boxes[a].ports, boxes[b].ports)
  }

  ghost predicate Apart(a: Block, b: Block)
  {
    a.size != 0 && b.size != 0 ==> !SharesPort(a, b)
  }

  /** The listing reports the recorded block of each box, or none. */
  ghost predicate ReportsRecorded(managed: seq<ManagedProject>, boxes: map<string, Box>)
  {
    forall i | 0 <= i < |managed| && managed[i].ports.size != 0 ::
      managed[i].id in boxes && boxes[managed[i].id].ports == managed[i].ports
  }

  ghost predicate SameBlock(before: map<string, Box>, block: Block, id: string)
  {
    if id in before then block == before[id].ports else block.size == 0
  }

  lemma ReconcileKeepsBlock(env: Env, before: map<string, Box>, after: map<string, Box>, id: string)
    requires env.managed.Some? && ReconciledTo(env, env.managed.value, before, after, true)
    requires ReportsRecorded(env.managed.value, before) && id in after
    ensures SameBlock(before, after[id].ports, id)
  {
    hide ReconciledStatus, Find;
    assert ReconciledAt(env, env.managed.value, before, after, id, true);
    FoundIn(env.managed.value, id);
  }

  lemma ReconcileKeepsDisjoint(env: Env, before: State, after: State)
    requires Reconciles(env, before, after) && ReportsRecorded(env.managed.value, before.boxes) && Disjoint(before.boxes)
    ensures Disjoint(after.boxes)
  {
    hide ReconciledTo, ReportsRecorded, SharesPort;
    forall a, b | a in after.boxes && b in after.boxes && a != b ensures Apart(after.boxes[a].ports, after.boxes[b].ports) {
      ReconcileKeepsBlock(env, before.boxes, after.boxes, a);
      ReconcileKeepsBlock(env, before.boxes, after.boxes, b);
    }
  }

  // ---- the two loops --------------------------------------------------------

  lemma AdoptNext(env: Env, managed: seq<ManagedProject>, k: nat, before: map<string, Box>, now: map<string, Box>)
    requires k < |managed| && Reported(managed) && ReconciledTo(env, managed[..k], before, now, false)
    ensures Lookup(now, managed[k].id) == Lookup(before, managed[k].id)
    ensures ReconciledTo(env, managed[..k + 1], before,
                         now[managed[k].id := Adopted(env, Lookup(before, managed[k].id), managed[k])], false)
  {
    hide Adopted;
    var m := managed[k];
    var next := now[m.id := Adopted(env, Lookup(before, m.id), m)];
    var first, more := managed[..k], managed[..k + 1];
    assert more[..k] == first;
    FoundIn(first, m.id);
    assert forall i | 0 <= i < k :: first[i] == managed[i];
    assert ReconciledAt(env, first, before, now, m.id, false);
    forall id: string ensures ReconciledAt(env, more, before, next, id, false) {
      assert ReconciledAt(env, first, before, now, id, false);
    }
  }

  lemma SettleAll(env: Env, managed: seq<ManagedProject>, before: map<string, Box>, now: map<string, Box>,
                  after: map<string, Box>)
    requires ReconciledTo(env, managed, before, now, false)
    requires after == map id | id in now :: if Find(managed, id).Some? then now[id] else Settled(now[id])
    ensures ReconciledTo(env, managed, before, after, true)
  {
    hide Adopted, Find, Settled;
    forall id: string ensures ReconciledAt(env, managed, before, after, id, true) {
      assert ReconciledAt(env, managed, before, now, id, false);
    }
  }

  lemma StartsUnreconciled(env: Env, before: map<string, Box>)
    ensures ReconciledTo(env, [], before, before, false)
  {
  }

  /** loadAndReconcileUnlocked. */
  method LoadAndReconcile(world: World, env: Env) returns (r: Option<State>)
    requires world.Valid() && (env.managed.Some? ==> Reported(env.managed.value))
    modifies world`disk, world`log
    ensures world.Valid()
    ensures r.Some? <==> Loads(env, old(world.disk))
    ensures r.Some? ==> r.value == world.disk && Reconciles(env, old(world.disk), world.disk)
    ensures r.Some? ==> ReconcilesAs(env, old(world.disk), world.disk)
    ensures world.disk == old(world.disk) || Reconciles(env, old(world.disk), world.disk)
  {
    hide Inv, Follows, Adopted, Find, Settled, ReconciledTo, Reported, ReconcilesAs;
    if env.loadFails || env.managed.None? {
      return None;
    }
    var managed := env.managed.value;
    var current := world.disk;
    ghost var before := current.boxes;
    StartsUnreconciled(env, before);
    var seen: set<string> := {};
    for k := 0 to |managed|
      modifies {}
      invariant ReconciledTo(env, managed[..k], before, current.boxes, false)
      invariant current.connections == world.disk.connections
      invariant forall i | 0 <= i < k :: managed[i].id in before || env.directory(managed[i].id).Some?
      invariant seen == set i | 0 <= i < k :: managed[i].id
    {
      var actual := managed[k];
      seen := seen + {actual.id};
      AdoptNext(env, managed, k, before, current.boxes);
      if actual.id !in current.boxes && env.directory(actual.id).None? {
        return None;
      }
      var record := Adopted(env, Lookup(current.boxes, actual.id), actual);
      current := current.(boxes := current.boxes[actual.id := record]);
    }
    assert managed[..|managed|] == managed;
    SeenIsFound(managed, seen);
    var settled := SettleUnseen(current.boxes, seen);
    SettleAll(env, managed, before, current.boxes, settled);
    current := current.(boxes := settled);
    DiskIsSound(world);
    ReconcilesSoundly(world.ip, world.hash, env, world.disk, current, world.runtimes);
    if env.save.Saved? {
      ReconcilesSays(world.hash, env, world.disk, current);
    }
    var saved := world.Save(current, env.save, Plain);
    return if saved then Some(current) else None;
  }

  lemma DiskIsSound(world: World)
    requires world.Valid()
    ensures Inv(world.hash, world.disk)
  {
  }

  lemma SeenIsFound(managed: seq<ManagedProject>, seen: set<string>)
    requires seen == set i | 0 <= i < |managed| :: managed[i].id
    ensures forall id: string :: id in seen <==> Find(managed, id).Some?
  {
    forall id: string ensures id in seen <==> Find(managed, id).Some? {
      FoundIn(managed, id);
    }
  }

  /** The second loop: boxes that the listing does not show are stopped unless
      they are still being created. */
  method SettleUnseen(boxes: map<string, Box>, seen: set<string>) returns (r: map<string, Box>)
    ensures r == map id | id in boxes :: if id in seen then boxes[id] else Settled(boxes[id])
  {
    r := boxes;
    var rest := boxes.Keys;
    while rest != {}
      invariant rest <= boxes.Keys
      invariant r == map id | id in boxes :: if id in seen || id in rest then boxes[id] else Settled(boxes[id])
      decreases rest
    {
      var id :| id in rest;
      rest := rest - {id};
      if id !in seen && boxes[id].status != Creating {
        r := r[id := boxes[id].(status := Stopped)];
      }
    }
  }
}
