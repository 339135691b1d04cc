/** The persisted state (internal/state/model.go), the properties every
    persisted value has, and the history of values the state file holds. */
module Records {
  import opened Ordering
  import opened PortForward
  import opened Allocator

  datatype Status = Creating | Ready | Stopping | Stopped | Starting | Error | Destroying

  /** A box record. Paths inside the box directory are derived from it; the
      recorded ones are empty in records written before they existed. */
  datatype Box = Box(
    id: string,
    name: string,
    worktree: string,
    projectName: string,
    status: Status,
    ports: Block,
    directory: string,
    gatewayEnabled: bool,
    configPath: string,
    overridePath: string,
    tokenPath: string,
    mappings: seq<Mapping>,
    runtimeError: string,
    lastUsed: int)

  datatype ConnectionStatus = ConnectionReady | ConnectionDegraded | ConnectionError

  datatype Connection = Connection(
    id: string,
    name: string,
    version: string,
    members: seq<string>,
    status: ConnectionStatus,
    error: string)

  datatype State = State(boxes: map<string, Box>, connections: map<string, Connection>)

  // ---- the runtime of one box -----------------------------------------------

  datatype Bridge = BridgeDown | BridgeUp(ports: Option<Body>, publications: seq<Mapping>)

  /** Everything outside the state file that a port change touches. */
  datatype Runtime = Runtime(
    config: Option<Body>,
    override: Option<Body>,
    bridge: Bridge,
    imports: seq<Mapping>,
    relayUp: bool)

  const NO_RUNTIME := Runtime(None, None, BridgeDown, [], false)

  /** The bridge that Compose brings up from the current files. */
  function BridgeFromFiles(ip: AddressParser, w: Runtime, box: Box): Option<Bridge>
  {
    if Filter(box.mappings, PUBLISH) == [] then Some(BridgeDown)
    else if w.config.None? || LoadConfig(ip, w.config.value).None? then None
    else Some(BridgeUp(if box.overridePath == "" then None else w.override,
                       Filter(LoadConfig(ip, w.config.value).value, PUBLISH)))
  }

  /** The imports that the sidecar serves from the current config file. */
  function ImportsFromFiles(ip: AddressParser, w: Runtime): Option<seq<Mapping>>
  {
    if w.config.None? || LoadConfig(ip, w.config.value).None? then None
    else Some(Filter(LoadConfig(ip, w.config.value).value, IMPORT))
  }

  /** Publications and imports of the record were applied from the files. */
  predicate RuntimeApplied(ip: AddressParser, w: Runtime, box: Box)
  {
    && (Filter(box.mappings, PUBLISH) != [] ==> Some(w.bridge) == BridgeFromFiles(ip, w, box))
    && (Filter(box.mappings, IMPORT) != [] ==> Some(w.imports) == ImportsFromFiles(ip, w))
  }

  // ---- properties of every persisted state ----------------------------------

  predicate BoxInv(key: string, box: Box)
  {
    box.id == key && (box.runtimeError != "" ==> box.status != Ready) && box.ports.size >= 0
  }

  /** Hash abbreviates SHA-256 over the sorted members. */
  ghost predicate HashedFrom(hash: seq<string> -> string, id: string, origin: seq<string>)
  {
    StrictlySorted(origin) && |origin| >= 2 && hash(origin) == id
  }

  ghost predicate ConnectionInv(hash: seq<string> -> string, boxes: map<string, Box>, key: string, c: Connection)
  {
    && c.id == key
    && |c.members| >= 2
    && StrictlySorted(c.members)
    && (forall m | m in c.members :: m in boxes)
    && exists origin :: HashedFrom(hash, key, origin) && forall m | m in c.members :: m in origin
  }

  ghost predicate NamesUnique(connections: map<string, Connection>)
  {
    forall a, b | a in connections && b in connections && a != b ::
      connections[a].name == "" || connections[a].name != connections[b].name
  }

  ghost predicate Inv(hash: seq<string> -> string, s: State)
  {
    && (forall id | id in s.boxes :: BoxInv(id, s.boxes[id]))
    && (forall id | id in s.connections :: ConnectionInv(hash, s.boxes, id, s.connections[id]))
    && NamesUnique(s.connections)
  }

  lemma PutBoxKeepsInv(hash: seq<string> -> string, s: State, box: Box)
    requires Inv(hash, s) && BoxInv(box.id, box)
    ensures Inv(hash, s.(boxes := s.boxes[box.id := box]))
  {
    var boxes := s.boxes[box.id := box];
    forall id | id in s.connections ensures ConnectionInv(hash, boxes, id, s.connections[id]) {
      assert ConnectionInv(hash, s.boxes, id, s.connections[id]);
    }
  }

  // ---- history --------------------------------------------------------------

  /** What the operation that replaced the state file says it did. */
  datatype Reason =
    | Plain
    | Reapplied(id: string)
    | Destroyed(id: string)

  /** One value of the state file, with the runtimes of all boxes at the moment
      it was written. */
  datatype Entry = Entry(reason: Reason, state: State, runtimes: map<string, Runtime>)

  function RuntimeIn(runtimes: map<string, Runtime>, id: string): Runtime
  {
    if id in runtimes then runtimes[id] else NO_RUNTIME
  }

  ghost predicate HasError(s: State, id: string)
  {
    id in s.boxes && s.boxes[id].runtimeError != ""
  }

  /** Nothing of a box is left but, perhaps, a relay it never used. */
  predicate TornDown(w: Runtime)
  {
    w == NO_RUNTIME.(relayUp := w.relayUp)
  }

  /** The record is in the state file and the runtime that the box has at that
      moment was applied from its files. */
  ghost predicate ReappliedIn(ip: AddressParser, e: Entry, id: string)
  {
    e.reason == Reapplied(id) && id in e.state.boxes && RuntimeApplied(ip, RuntimeIn(e.runtimes, id), e.state.boxes[id])
  }

  ghost predicate DestroyedIn(e: Entry, id: string)
  {
    e.reason == Destroyed(id) && id !in e.state.boxes && TornDown(RuntimeIn(e.runtimes, id))
  }

  /** What a replacement of the state file may do to a box: keep its record
      and its runtime error, clear the error while its port runtime is the one
      of its files, or drop the record once nothing of the box is left. */
  ghost predicate Follows(ip: AddressParser, before: State, e: Entry)
  {
    && (forall id | id in before.boxes :: id in e.state.boxes || DestroyedIn(e, id))
    && (forall id | HasError(before, id) && !HasError(e.state, id) :: DestroyedIn(e, id) || ReappliedIn(ip, e, id))
  }

  ghost predicate HistoryInv(ip: AddressParser, hash: seq<string> -> string, log: seq<Entry>, disk: State)
  {
    && |log| > 0 && log[|log| - 1].state == disk
    && (forall i | 0 <= i < |log| :: Inv(hash, log[i].state))
    && (forall i | 0 < i < |log| :: Follows(ip, log[i - 1].state, log[i]))
  }

  /** Over a whole run a runtime error goes away only at a replacement while the
      box has the port runtime of its files, or when nothing of it is left. */
  lemma {:induction false} ErrorClearedOnlyBy(
    ip: AddressParser, hash: seq<string> -> string, log: seq<Entry>, disk: State, i: nat, j: nat, id: string)
    returns (k: nat)
    requires HistoryInv(ip, hash, log, disk) && i < j < |log|
    requires HasError(log[i].state, id) && !HasError(log[j].state, id)
    ensures i < k <= j && HasError(log[k - 1].state, id)
    ensures DestroyedIn(log[k], id) || ReappliedIn(ip, log[k], id)
  {
    hide Inv, RuntimeApplied;
    if HasError(log[j - 1].state, id) {
      k := j;
      assert Follows(ip, log[j - 1].state, log[j]);
    } else {
      k := ErrorClearedOnlyBy(ip, hash, log, disk, i, j - 1, id);
    }
  }

  /** Over a whole run a box record disappears only when the box was torn down. */
  lemma {:induction false} RecordLostOnlyBy(
    ip: AddressParser, hash: seq<string> -> string, log: seq<Entry>, disk: State, i: nat, j: nat, id: string)
    returns (k: nat)
    requires HistoryInv(ip, hash, log, disk) && i < j < |log|
    requires id in log[i].state.boxes && id !in log[j].state.boxes
    ensures i < k <= j && DestroyedIn(log[k], id)
  {
    hide Inv, RuntimeApplied;
    if id in log[j - 1].state.boxes {
      k := j;
      assert Follows(ip, log[j - 1].state, log[j]);
    } else {
      k := RecordLostOnlyBy(ip, hash, log, disk, i, j - 1, id);
    }
  }
}
