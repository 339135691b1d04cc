/** Connect and Disconnect (internal/sandbox/connections.go). */
module ConnectionOperations {
  import opened Ordering
  import opened PortForward
  import opened Allocator
  import opened Records
  import opened Host
  import opened ComposeStatus
  import opened Networks
  import opened Reconcile
  import opened Manager

  datatype ConnectCalls = ConnectCalls(
    lockFails: bool, env: Env, network: NetworkCalls, saveFirst: SaveResult, saveLast: SaveResult)

  // ---- the members ----------------------------------------------------------

  /** A selector stands for a ready box. */
  ghost predicate Selects(boxes: map<string, Box>, selector: string, m: string)
  {
    ResolvesTo(BoxNames(boxes), selector, true, Found(m)) && ReadyMember(boxes, m)
  }

  /** The selectors stand for these boxes, in order, none of them twice. */
  ghost predicate SelectionOf(boxes: map<string, Box>, selectors: seq<string>, members: seq<string>)
  {
    && |members| == |selectors|
    && (forall i | 0 <= i < |members| :: Selects(boxes, selectors[i], members[i]))
    && forall i, j | 0 <= i < j < |members| :: members[i] != members[j]
  }

  lemma SelectsOne(boxes: map<string, Box>, selector: string, m: string, n: string)
    requires Selects(boxes, selector, m) && ResolvesTo(BoxNames(boxes), selector, true, Found(n))
    ensures m == n
  {
    hide ResolvesTo;
    ResolvesUniquely(BoxNames(boxes), selector, true, Found(m), Found(n));
  }

  lemma SelectionUnique(boxes: map<string, Box>, selectors: seq<string>, a: seq<string>, b: seq<string>)
    requires SelectionOf(boxes, selectors, a) && SelectionOf(boxes, selectors, b)
    ensures a == b
  {
    hide ResolvesTo;
    forall i | 0 <= i < |a| ensures a[i] == b[i] {
      SelectsOne(boxes, selectors[i], a[i], b[i]);
    }
  }

  /** A selector that stands for no box, for one that is not ready or for one
      selected before leaves no selection. */
  lemma SelectionStops(boxes: map<string, Box>, selectors: seq<string>, before: seq<string>, selected: Selected)
    requires |before| < |selectors| && SelectionOf(boxes, selectors[..|before|], before)
    requires ResolvesTo(BoxNames(boxes), selectors[|before|], true, selected)
    requires !selected.Found? || selected.id in before || !ReadyMember(boxes, selected.id)
    ensures !exists members :: SelectionOf(boxes, selectors, members)
  {
    hide ResolvesTo, ReadyMember;
    forall members ensures !SelectionOf(boxes, selectors, members) {
      if SelectionOf(boxes, selectors, members) {
        var k := |before|;
        assert Selects(boxes, selectors[k], members[k]);
        ResolvesUniquely(BoxNames(boxes), selectors[k], true, Found(members[k]), selected);
        SelectionUnique(boxes, selectors[..k], before, members[..k]);
      }
    }
  }

  /** Resolves every selector to a ready box that was not selected before. */
  method SelectMembers(boxes: map<string, Box>, selectors: seq<string>) returns (r: Option<seq<string>>)
    ensures r.Some? <==> exists members :: SelectionOf(boxes, selectors, members)
    ensures r.Some? ==> SelectionOf(boxes, selectors, r.value)
  {
    hide ResolvesTo;
    var members: seq<string> := [];
    for k := 0 to |selectors|
      invariant |members| == k && SelectionOf(boxes, selectors[..k], members)
    {
      var selected := ResolveBox(boxes, selectors[k]);
      if !selected.Found? || selected.id in members || boxes[selected.id].status != Ready {
        SelectionStops(boxes, selectors, members, selected);
        return None;
      }
      members := members + [selected.id];
    }
    assert selectors[..|selectors|] == selectors;
    return Some(members);
  }

  // ---- the record -----------------------------------------------------------

  /** Whether a name is free for a connection. */
  ghost predicate NameFree(connections: Connections, id: string, name: string)
  {
    name == "" || forall other | other in connections && other != id :: connections[other].name != name
  }

  method NameIsFree(connections: Connections, id: string, name: string) returns (r: bool)
    ensures r <==> NameFree(connections, id, name)
  {
    var rest := connections.Keys;
    while rest != {}
      invariant rest <= connections.Keys
      invariant name == "" || forall other | other in connections && other != id && other !in rest ::
                  connections[other].name != name
      decreases rest
    {
      var other :| other in rest;
      rest := rest - {other};
      if connections[other].name == name && name != "" && other != id {
        return false;
      }
    }
    return true;
  }

  /** The record before its network is reconciled. An existing connection keeps
      its members, even when it lost some of those it was made of. */
  function Requested(connections: Connections, id: string, members: seq<string>, name: string, version: string): Connection
  {
    if id in connections then
      var known := connections[id];
      known.(name := if known.name == "" then name else known.name,
             version := if version != "" then version else known.version)
    else Connection(id, name, version, members, ConnectionDegraded, "")
  }

  /** Connecting boxes again reaches all of them exactly when the recorded
      connection has not lost a member: a lost one is not added back. */
  lemma ConnectAddsNobody(connections: Connections, id: string, members: seq<string>, name: string, version: string)
    requires StrictlySorted(members)
    requires id in connections ==>
               StrictlySorted(connections[id].members) && forall m | m in connections[id].members :: m in members
    ensures (forall m | m in members :: m in Requested(connections, id, members, name, version).members)
            <==> id !in connections || connections[id].members == members
  {
    if id in connections && forall m | m in members :: m in connections[id].members {
      StrictlySortedUnique(connections[id].members, members);
    }
  }

  const ALPHA := "aaaaaaaaaaaa"
  const BETA := "bbbbbbbbbbbb"
  const GAMMA := "cccccccccccc"

  function ReadyBox(id: string): Box
  {
    Box(id, "", "", id, Ready, Block(18000, 1), "", false, "", "", "", [], "", 0)
  }

  /** Three connected boxes, of which the third was destroyed and created
      again. */
  function LostMember(hash: seq<string> -> string): State
  {
    var id := hash([ALPHA, BETA, GAMMA]);
    State(map[ALPHA := ReadyBox(ALPHA), BETA := ReadyBox(BETA), GAMMA := ReadyBox(GAMMA)],
          map[id := Connection(id, "", "", Others([ALPHA, BETA, GAMMA], GAMMA), ConnectionReady, "")])
  }

  lemma SampleOrder()
    ensures StrictlySorted([ALPHA, BETA, GAMMA]) && StrictlySorted([ALPHA, BETA])
  {
    assert ALPHA[0] == 'a' && BETA[0] == 'b' && GAMMA[0] == 'c';
    assert StringLess(ALPHA, BETA) && StringLess(BETA, GAMMA) && StringLess(ALPHA, GAMMA);
  }

  lemma SampleOthers()
    ensures Others([ALPHA, BETA, GAMMA], GAMMA) == [ALPHA, BETA]
  {
    SampleIdentities();
    assert [ALPHA, BETA, GAMMA][..2] == [ALPHA, BETA] && [ALPHA, BETA][..1] == [ALPHA] && [ALPHA][..0] == [];
    assert Others([ALPHA], GAMMA) == [ALPHA];
    assert Others([ALPHA, BETA], GAMMA) == [ALPHA, BETA];
  }

  lemma LostMemberIsSound(hash: seq<string> -> string)
    ensures Inv(hash, LostMember(hash))
  {
    SampleOrder();
    SampleOthers();
    SampleIdentities();
    var id := hash([ALPHA, BETA, GAMMA]);
    assert HashedFrom(hash, id, [ALPHA, BETA, GAMMA]);
    assert ConnectionInv(hash, LostMember(hash).boxes, id, LostMember(hash).connections[id]);
  }

  /** Connecting the three boxes again is admitted, finds the connection they
      hash to and leaves the third one out of it. */
  lemma LostMemberStaysOut(hash: seq<string> -> string, name: string, version: string)
    ensures var all, id := [ALPHA, BETA, GAMMA], hash([ALPHA, BETA, GAMMA]);
            && Inv(hash, LostMember(hash)) && Admitted(hash, LostMember(hash), all, name, all, id)
            && GAMMA !in Requested(LostMember(hash).connections, id, all, name, version).members
  {
    hide Selects, SelectionOf, Identifiable, StrictlySorted, Others, Inv;
    SampleOrder();
    SampleOthers();
    SampleIdentities();
    LostMemberIsSound(hash);
    SampleSelection(hash);
    var all := [ALPHA, BETA, GAMMA];
    assert Joins(hash, LostMember(hash).boxes, all, all, hash(all));
  }

  lemma SampleSelection(hash: seq<string> -> string)
    ensures SelectionOf(LostMember(hash).boxes, [ALPHA, BETA, GAMMA], [ALPHA, BETA, GAMMA])
    ensures Identifiable([ALPHA, BETA, GAMMA])
  {
    hide Selects, Identifiable, Matches;
    var all, boxes := [ALPHA, BETA, GAMMA], LostMember(hash).boxes;
    SampleIdentities();
    assert LostMember(hash).boxes.Keys == {ALPHA, BETA, GAMMA};
    forall i | 0 <= i < 3 ensures Selects(boxes, all[i], all[i]) {
      ExactSelects(boxes, all[i]);
    }
  }

  lemma ExactSelects(boxes: map<string, Box>, id: string)
    requires ReadyMember(boxes, id)
    ensures Selects(boxes, id, id)
  {
  }

  lemma SampleIdentities()
    ensures Identifiable([ALPHA, BETA, GAMMA])
    ensures ALPHA != BETA && ALPHA != GAMMA && BETA != GAMMA
  {
    assert ALPHA[0] == 'a' && BETA[0] == 'b' && GAMMA[0] == 'c';
  }

  /** A connection can be made of these members under this name. */
  ghost predicate Connectable(connections: Connections, id: string, name: string)
  {
    && NameFree(connections, id, name)
    && (id in connections && connections[id].name != "" && name != "" ==> connections[id].name == name)
  }

  /** What a connection of these members, asked for under a name and a version,
      is recorded with: an empty text keeps what there was, and an existing
      connection keeps its members. */
  ghost predicate RecordsRequest(before: Connections, id: string, members: seq<string>, name: string, version: string,
                                 r: Connection)
  {
    && r.id == id
    && (name != "" ==> r.name == name) && (version != "" ==> r.version == version)
    && (name == "" && id in before ==> r.name == before[id].name)
    && (version == "" && id in before ==> r.version == before[id].version)
    && (id in before ==> r.members == before[id].members)
    && (id !in before ==> r.members == members && (name == "" ==> r.name == "") && (version == "" ==> r.version == ""))
  }

  /** A connection made under a name is found by it, unless the name starts or
      is an identifier. */
  lemma NameFindsConnection(hash: seq<string> -> string, s: State, id: string)
    requires Inv(hash, s) && id in s.connections && s.connections[id].name != ""
    requires var name := s.connections[id].name;
             forall other | other in s.connections :: other != name && !(name <= other)
    ensures ResolvesTo(ConnectionNames(s.connections), s.connections[id].name, true, Found(id))
  {
    hide ConnectionInv;
    var name, names := s.connections[id].name, ConnectionNames(s.connections);
    forall other | other in names ensures other in Hits(names, name, true) <==> other == id {}
  }

  ghost predicate Hashes(hash: seq<string> -> string, members: seq<string>, id: string)
  {
    hash(members) == id
  }

  lemma RequestedInv(hash: seq<string> -> string, s: State, id: string, members: seq<string>, name: string, version: string)
    requires Inv(hash, s) && Connectable(s.connections, id, name)
    requires StrictlySorted(members) && |members| >= 2 && Hashes(hash, members, id)
    requires forall m | m in members :: m in s.boxes
    ensures var c := Requested(s.connections, id, members, name, version);
            c.id == id && Inv(hash, s.(connections := s.connections[id := c]))
  {
    var c := Requested(s.connections, id, members, name, version);
    var connections := s.connections[id := c];
    RequestedSound(hash, s, id, members, name, version);
    hide ConnectionInv;
    forall other | other in connections ensures ConnectionInv(hash, s.boxes, other, connections[other]) {}
    forall a, b | a in connections && b in connections && a != b
      ensures connections[a].name == "" || connections[a].name != connections[b].name
    {
      if a in s.connections && b in s.connections && (a != id && b != id) {
        assert s.connections[a].name == "" || s.connections[a].name != s.connections[b].name;
      }
    }
  }

  lemma RequestedSound(hash: seq<string> -> string, s: State, id: string, members: seq<string>, name: string, version: string)
    requires Inv(hash, s)
    requires StrictlySorted(members) && |members| >= 2 && Hashes(hash, members, id)
    requires forall m | m in members :: m in s.boxes
    ensures ConnectionInv(hash, s.boxes, id, Requested(s.connections, id, members, name, version))
  {
    if id in s.connections {
      assert ConnectionInv(hash, s.boxes, id, s.connections[id]);
    } else {
      assert HashedFrom(hash, id, members);
    }
  }

  /** Saves that change connections only. */
  lemma ConnectionsFollow(ip: AddressParser, disk: State, current: State, connections: Connections,
                          runtimes: map<string, Runtime>)
    requires current.boxes == disk.boxes
    ensures Follows(ip, disk, Entry(Plain, State(current.boxes, connections), runtimes))
  {
    hide RuntimeApplied;
  }

  /** The selectors name the members of the connection of an identifier. */
  ghost predicate Joins(hash: seq<string> -> string, boxes: map<string, Box>, selectors: seq<string>,
                        members: seq<string>, id: string)
  {
    && StrictlySorted(members) && Hashes(hash, members, id)
    && exists selected :: SelectionOf(boxes, selectors, selected) && Identifiable(selected)
                          && multiset(members) == multiset(selected)
  }

  /** The same selectors name the same connection. */
  lemma JoinsOne(hash: seq<string> -> string, boxes: map<string, Box>, selectors: seq<string>,
                 a: seq<string>, idA: string, b: seq<string>, idB: string)
    requires Joins(hash, boxes, selectors, a, idA) && Joins(hash, boxes, selectors, b, idB)
    ensures a == b && idA == idB
  {
    hide SelectionOf, Identifiable;
    var s :| SelectionOf(boxes, selectors, s) && Identifiable(s) && multiset(a) == multiset(s);
    var t :| SelectionOf(boxes, selectors, t) && Identifiable(t) && multiset(b) == multiset(t);
    SelectionUnique(boxes, selectors, s, t);
    IdIgnoresOrder(s, t, a, b);
  }

  lemma JoinsReady(hash: seq<string> -> string, boxes: map<string, Box>, selectors: seq<string>, members: seq<string>,
                   id: string)
    requires Joins(hash, boxes, selectors, members, id)
    ensures StrictlySorted(members) && Hashes(hash, members, id) && |members| == |selectors| >= 2
    ensures forall m | m in members :: ReadyMember(boxes, m)
  {
    hide ReadyMember, ResolvesTo, ValidBoxId;
    var selected :| SelectionOf(boxes, selectors, selected) && Identifiable(selected)
                    && multiset(members) == multiset(selected);
    SameLength(members, selected);
    forall m | m in members ensures ReadyMember(boxes, m) {
      assert m in multiset(selected);
      var i :| 0 <= i < |selected| && selected[i] == m;
      assert Selects(boxes, selectors[i], selected[i]);
    }
  }

  /** The members, and the identifier they hash to, of a valid selection. */
  method Identify(hash: seq<string> -> string, boxes: map<string, Box>, selectors: seq<string>)
    returns (r: Option<string>, members: seq<string>)
    ensures r.Some? <==> exists m, id :: Joins(hash, boxes, selectors, m, id)
    ensures r.Some? ==> Joins(hash, boxes, selectors, members, r.value)
  {
    hide SelectionOf, Identifiable;
    var selected := SelectMembers(boxes, selectors);
    if selected.None? {
      return None, [];
    }
    r, members := ID(hash, selected.value);
    if r.Some? {
      assert Joins(hash, boxes, selectors, members, r.value);
    } else {
      forall m, id ensures !Joins(hash, boxes, selectors, m, id) {
        if Joins(hash, boxes, selectors, m, id) {
          var s :| SelectionOf(boxes, selectors, s) && Identifiable(s) && multiset(m) == multiset(s);
          SelectionUnique(boxes, selectors, s, selected.value);
        }
      }
    }
  }

  /** Connect after the state was loaded. */
  method ConnectLoaded(world: World, current: State, id: string, members: seq<string>, name: string, version: string,
                       f: ConnectCalls)
    returns (r: Connection, ok: bool)
    requires world.Valid() && world.disk == current && Inv(world.hash, current)
    requires Connectable(current.connections, id, name)
    requires StrictlySorted(members) && |members| >= 2 && Hashes(world.hash, members, id)
    requires forall m | m in members :: m in current.boxes
    modifies world`disk, world`log
    ensures world.Valid()
    ensures var requested := Requested(current.connections, id, members, name, version);
            var reconciled := Reconciled(f.network, current.boxes, requested);
            var first := SaveEffect(f.saveFirst, current, State(current.boxes, current.connections[id := requested]));
            && world.disk == (if !f.saveFirst.Saved? then first
                              else SaveEffect(f.saveLast, first, State(current.boxes, current.connections[id := reconciled])))
            && (ok <==> f.saveFirst.Saved? && f.saveLast.Saved?
                        && ReconcileError(f.network, current.boxes, requested).None?)
            && (ok ==> r == reconciled) && r.id == requested.id
  {
    hide Inv, HistoryInv, Follows, ReconcileError, Reconciled, Refreshed, Connectable;
    r := Requested(current.connections, id, members, name, version);
    RequestedInv(world.hash, current, id, members, name, version);
    var requested := State(current.boxes, current.connections[id := r]);
    ConnectionsFollow(world.ip, world.disk, current, requested.connections, world.runtimes);
    ok := world.Save(requested, f.saveFirst, Plain);
    if !ok {
      return;
    }
    var error;
    ReconciledFields(f.network, current.boxes, r);
    r, error := ReconcileConnection(f.network, current.boxes, r);
    var reconciled := State(current.boxes, requested.connections[id := r]);
    StatusRefreshed(f.network, current.boxes, requested.connections, id);
    RefreshedKeepsInv(world.hash, requested, reconciled.connections);
    ConnectionsFollow(world.ip, world.disk, reconciled, reconciled.connections, world.runtimes);
    assert reconciled.connections == current.connections[id := r];
    var saved := world.Save(reconciled, f.saveLast, Plain);
    ok := saved && error.None?;
  }

  lemma StatusRefreshed(calls: NetworkCalls, boxes: map<string, Box>, connections: Connections, id: string)
    requires id in connections
    ensures Refreshed(connections, connections[id := Reconciled(calls, boxes, connections[id])])
  {
    hide ReconcileError, Complete;
  }

  /** Nothing keeps the selectors and the name from making a connection. */
  ghost predicate Admitted(hash: seq<string> -> string, s: State, selectors: seq<string>, name: string,
                           members: seq<string>, id: string)
  {
    Joins(hash, s.boxes, selectors, members, id) && Connectable(s.connections, id, name)
  }

  ghost predicate Asks(f: ConnectCalls, disk: State, name: string)
  {
    !f.lockFails && (name == "" || ValidName(name)) && Loads(f.env, disk)
  }

  /** What Connect did to the state it loaded: at most one record is new, that
      of the selected boxes, and it is the reconciled one after both saves. */
  ghost predicate Connected(f: ConnectCalls, name: string, version: string, current: State, after: State,
                            members: seq<string>, r: Connection, ok: bool)
  {
    var requested := Requested(current.connections, r.id, members, name, version);
    var reconciled := Reconciled(f.network, current.boxes, requested);
    var first := SaveEffect(f.saveFirst, current, State(current.boxes, current.connections[r.id := requested]));
    && after == (if !f.saveFirst.Saved? then first
                 else SaveEffect(f.saveLast, first, State(current.boxes, current.connections[r.id := reconciled])))
    && (ok <==> f.saveFirst.Saved? && f.saveLast.Saved? && ReconcileError(f.network, current.boxes, requested).None?)
    && (ok ==>
          && r == reconciled && r.id in after.connections && after.connections[r.id] == r
          && RecordsRequest(current.connections, r.id, members, name, version, r)
          && r.status in {ConnectionReady, ConnectionDegraded} && r.error == "")
  }

  /** Connect. It fails before its first save exactly when the selectors and
      the name make no connection in the reconciled state. */
  method Connect(world: World, selectors: seq<string>, name: string, version: string, f: ConnectCalls)
    returns (r: Option<Connection>, ok: bool, ghost current: State, ghost members: seq<string>)
    requires world.Valid() && (f.env.managed.Some? ==> Reported(f.env.managed.value))
    modifies world`disk, world`log
    ensures world.Valid()
    ensures Asks(f, old(world.disk), name) ==> Reconciles(f.env, old(world.disk), current)
    ensures r.Some? <==> Asks(f, old(world.disk), name)
                         && exists m, id :: Admitted(world.hash, current, selectors, name, m, id)
    ensures r.None? ==> !ok
    ensures r.None? && Asks(f, old(world.disk), name) ==> world.disk == current
    ensures !Asks(f, old(world.disk), name) ==> world.disk == old(world.disk) || Reconciles(f.env, old(world.disk), world.disk)
    ensures r.Some? ==>
              && Admitted(world.hash, current, selectors, name, members, r.value.id)
              && Connected(f, name, version, current, world.disk, members, r.value, ok)
  {
    hide Inv, HistoryInv, Follows, ReconcileError, Reconciled, Reconciles, Reported, ValidName, ReadyMember, Loads, Joins,
      NameFree;
    current, members := world.disk, [];
    if f.lockFails || (name != "" && !ValidName(name)) {
      return None, false, current, members;
    }
    var loaded := LoadAndReconcile(world, f.env);
    if loaded.None? {
      return None, false, current, members;
    }
    current := loaded.value;
    DiskIsSound(world);
    var id, sorted := Identify(world.hash, loaded.value.boxes, selectors);
    if id.None? {
      return None, false, current, members;
    }
    members := sorted;
    NoOther(world.hash, loaded.value, selectors, name, sorted, id.value);
    var connections := loaded.value.connections;
    var free := NameIsFree(connections, id.value, name);
    if !free {
      return None, false, current, members;
    }
    if id.value in connections && connections[id.value].name != "" && name != "" && connections[id.value].name != name {
      return None, false, current, members;
    }
    JoinsReady(world.hash, loaded.value.boxes, selectors, sorted, id.value);
    MembersExist(loaded.value.boxes, sorted);
    var c, done := ConnectLoaded(world, loaded.value, id.value, sorted, name, version, f);
    RequestedId(world.hash, loaded.value, id.value, sorted, name, version);
    ReconciledFields(f.network, loaded.value.boxes, Requested(connections, id.value, sorted, name, version));
    return Some(c), done, current, members;
  }

  /** Whether the selectors are admitted is a question about one connection. */
  lemma NoOther(hash: seq<string> -> string, s: State, selectors: seq<string>, name: string, members: seq<string>, id: string)
    requires Joins(hash, s.boxes, selectors, members, id)
    ensures (exists m, i :: Admitted(hash, s, selectors, name, m, i)) <==> Connectable(s.connections, id, name)
  {
    hide Joins, Connectable;
    forall m, i | Admitted(hash, s, selectors, name, m, i) ensures m == members && i == id {
      JoinsOne(hash, s.boxes, selectors, m, i, members, id);
    }
    if Connectable(s.connections, id, name) {
      assert Admitted(hash, s, selectors, name, members, id);
    }
  }

  lemma MembersExist(boxes: map<string, Box>, members: seq<string>)
    requires forall m | m in members :: ReadyMember(boxes, m)
    ensures forall m | m in members :: m in boxes
  {
  }

  lemma RequestedId(hash: seq<string> -> string, s: State, id: string, members: seq<string>, name: string, version: string)
    requires Inv(hash, s)
    ensures Requested(s.connections, id, members, name, version).id == id
  {
  }

  lemma ReconciledFields(calls: NetworkCalls, boxes: map<string, Box>, c: Connection)
    ensures var r := Reconciled(calls, boxes, c);
            && r.id == c.id && r.name == c.name && r.version == c.version && r.members == c.members
            && (ReconcileError(calls, boxes, c).None? ==> r.status != ConnectionError && r.error == "")
  {
    hide Complete, ReconcileError;
  }

  // ---- Disconnect -----------------------------------------------------------

  lemma DroppedKeepsInv(hash: seq<string> -> string, s: State, id: string)
    requires Inv(hash, s)
    ensures Inv(hash, s.(connections := s.connections - {id}))
  {
    hide ConnectionInv;
  }

  lemma MarkedRefreshed(connections: Connections, id: string, error: string)
    requires id in connections
    ensures Refreshed(connections, connections[id := connections[id].(status := ConnectionError, error := error)])
  {
  }

  /** The connections that Disconnect saves: without the selected one, or with
      the error of the failed network call. */
  function Disconnected(network: NetworkCalls, connections: Connections, id: string): Connections
    requires id in connections
  {
    var error := DisconnectError(network, connections[id]);
    if error.None? then connections - {id}
    else connections[id := connections[id].(status := ConnectionError, error := error.value)]
  }

  /** Disconnect. */
  method Disconnect(world: World, selector: string, env: Env, lockFails: bool, network: NetworkCalls, save: SaveResult)
    returns (ok: bool, ghost current: State, ghost selected: Selected)
    requires world.Valid() && (env.managed.Some? ==> Reported(env.managed.value))
    modifies world`disk, world`log
    ensures world.Valid()
    ensures lockFails || !Loads(env, old(world.disk)) ==>
              !ok && (world.disk == old(world.disk) || Reconciles(env, old(world.disk), world.disk))
    ensures !lockFails && Loads(env, old(world.disk)) ==>
              && Reconciles(env, old(world.disk), current)
              && ResolvesTo(ConnectionNames(current.connections), selector, selector != "", selected)
              && (selected.Found? ==> selected.id in current.connections)
              && (ok <==> selected.Found? && save.Saved? && Disconnects(network, current.connections[selected.id]))
              && world.disk == (if !selected.Found? then current
                                else SaveEffect(save, current, State(current.boxes,
                                       Disconnected(network, current.connections, selected.id))))
  {
    hide Inv, HistoryInv, Follows, Reconciles, Reported, Matches, Refreshed, Loads, ResolvesTo, DisconnectError, Disconnects;
    current, selected := world.disk, NotFound;
    if lockFails {
      return false, current, selected;
    }
    var loaded := LoadAndReconcile(world, env);
    if loaded.None? {
      return false, current, selected;
    }
    var was := loaded.value;
    current := was;
    DiskIsSound(world);
    var found := ResolveConnection(was.connections, selector);
    selected := found;
    if !found.Found? {
      return false, current, selected;
    }
    ConnectionId(world.hash, was, found.id);
    var error := DisconnectRuntime(network, was.connections[found.id]);
    var next := was.connections - {found.id};
    if error.Some? {
      next := was.connections[found.id := was.connections[found.id].(status := ConnectionError, error := error.value)];
      MarkedRefreshed(was.connections, found.id, error.value);
      RefreshedKeepsInv(world.hash, was, next);
    } else {
      DroppedKeepsInv(world.hash, was, found.id);
    }
    ConnectionsFollow(world.ip, world.disk, was, next, world.runtimes);
    var saved := world.Save(State(was.boxes, next), save, Plain);
    return saved && error.None?, current, selected;
  }

  lemma ConnectionId(hash: seq<string> -> string, s: State, id: string)
    requires Inv(hash, s) && id in s.connections
    ensures s.connections[id].id == id
  {
  }
}
