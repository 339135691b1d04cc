/** The loopback reconciler (internal/loopback/reconciler.go and bindPair of
    proxy.go): one IPv4 and one IPv6 listener for every active port. */
module Routes {
  import opened PortForward
  import opened Ordering
  import opened Discovery

  datatype Family = V4 | V6

  /** One listening socket; the number tells apart two sockets that are bound
      to the same address one after the other. */
  datatype Socket = Socket(number: nat, family: Family, port: Port)

  datatype Active = Active(publication: Publication, ipv4: Socket, ipv6: Socket)

  datatype RouteState = Listening | Conflict

  datatype Route = Route(port: Port, target: string, sources: seq<string>, state: RouteState, error: string)

  datatype RouteStatus = RouteStatus(eventStream: string, routes: seq<Route>, warnings: seq<Warning>)

  /** The error of net.Listen for each address during one call, if any. */
  type Refusals = (Family, Port) -> Option<string>

  /** The open sockets of the process, changed in place. */
  class Sockets {
    var open: set<Socket>
    var issued: nat

    constructor ()
      ensures open == {} && issued == 0
    {
      open, issued := {}, 0;
    }

    method Listen(family: Family, port: Port, refusal: Option<string>) returns (s: Option<Socket>)
      modifies this
      ensures s.None? <==> refusal.Some?
      ensures s.None? ==> open == old(open) && issued == old(issued)
      ensures s.Some? ==> s.value == Socket(old(issued), family, port) && open == old(open) + {s.value}
                          && issued == old(issued) + 1
    {
      if refusal.Some? {
        return None;
      }
      var socket := Socket(issued, family, port);
      issued := issued + 1;
      open := open + {socket};
      return Some(socket);
    }

    method Close(s: Socket)
      modifies this`open
      ensures open == old(open) - {s}
    {
      open := open - {s};
    }

    /** Binds both families or neither. */
    method BindPair(port: Port, refuse: Refusals) returns (ipv4: Option<Socket>, ipv6: Option<Socket>, error: string)
      requires forall s | s in open :: s.number < issued
      modifies this
      ensures issued >= old(issued) && forall s | s in open :: s.number < issued
      ensures ipv4.Some? == ipv6.Some? == Grants(refuse, port)
      ensures !Grants(refuse, port) ==> open == old(open) && error == RefusalText(refuse, port)
      ensures Grants(refuse, port) ==>
                && ipv4.value.family == V4 && ipv6.value.family == V6
                && ipv4.value.port == ipv6.value.port == port
                && ipv4.value.number >= old(issued) && ipv6.value.number >= old(issued)
                && open == old(open) + {ipv4.value, ipv6.value}
    {
      error := "";
      ipv6 := None;
      ipv4 := Listen(V4, port, refuse(V4, port));
      if ipv4.None? {
        return None, None, refuse(V4, port).value;
      }
      ipv6 := Listen(V6, port, refuse(V6, port));
      if ipv6.None? {
        Close(ipv4.value);
        return None, None, refuse(V6, port).value;
      }
    }
  }

  predicate Grants(refuse: Refusals, port: Port)
  {
    refuse(V4, port).None? && refuse(V6, port).None?
  }

  function RefusalText(refuse: Refusals, port: Port): string
  {
    if refuse(V4, port).Some? then refuse(V4, port).value
    else if refuse(V6, port).Some? then refuse(V6, port).value
    else ""
  }

  /** The wanted publications by port; of two with one port the later wins. */
  function Wanted(ps: seq<Publication>): (r: map<Port, Publication>)
    ensures forall port | port in r :: r[port].port == port
  {
    if ps == [] then map[] else Wanted(ps[..|ps| - 1])[ps[|ps| - 1].port := ps[|ps| - 1]]
  }

  // ---- what holds between calls ---------------------------------------------

  /** The open sockets are the pairs of the active ports and nothing else. */
  ghost predicate Paired(open: set<Socket>, active: map<Port, Active>)
  {
    && (forall port | port in active ::
          && active[port].publication.port == port
          && active[port].ipv4 in open && active[port].ipv4.family == V4 && active[port].ipv4.port == port
          && active[port].ipv6 in open && active[port].ipv6.family == V6 && active[port].ipv6.port == port)
    && (forall s | s in open :: s.port in active && (s == active[s.port].ipv4 || s == active[s.port].ipv6))
  }

  /** Exactly one socket of each family listens on each active port, none
      elsewhere. */
  lemma OnePairPerPort(open: set<Socket>, active: map<Port, Active>, family: Family, port: Port)
    requires Paired(open, active)
    ensures port in active <==> exists s | s in open :: s.family == family && s.port == port
    ensures forall s, t | s in open && t in open && s.family == t.family && s.port == t.port :: s == t
  {
    if port in active {
      assert (if family == V4 then active[port].ipv4 else active[port].ipv6) in open;
    }
  }

  lemma {:induction false} TwoSocketsPerPort(open: set<Socket>, active: map<Port, Active>)
    requires Paired(open, active)
    ensures |open| == 2 * |active|
    decreases |active|
  {
    if active == map[] {
      assert open == {};
    } else {
      var port :| port in active;
      var a := active[port];
      assert {a.ipv4, a.ipv6} <= open && |{a.ipv4, a.ipv6}| == 2;
      assert (active - {port}).Keys == active.Keys - {port};
      TwoSocketsPerPort(open - {a.ipv4, a.ipv6}, active - {port});
      assert |active - {port}| == |active| - 1;
    }
  }

  ghost predicate RouteFits(wanted: map<Port, Publication>, active: map<Port, Active>, refuse: Refusals, r: Route)
  {
    && r.port in wanted
    && r.target == wanted[r.port].target
    && r.sources == wanted[r.port].sources
    && (r.state == Listening <==> r.port in active)
    && r.error == if r.port in active then "" else RefusalText(refuse, r.port)
  }

  /** One route per wanted port, strictly increasing, listening exactly on the
      active ports. */
  ghost predicate RoutesFit(wanted: map<Port, Publication>, active: map<Port, Active>, refuse: Refusals, rs: seq<Route>)
  {
    && (forall i, j | 0 <= i < j < |rs| :: rs[i].port < rs[j].port)
    && (forall i | 0 <= i < |rs| :: RouteFits(wanted, active, refuse, rs[i]))
    && (forall port | port in wanted :: RoutedAt(rs, port))
  }

  ghost predicate RoutedAt(rs: seq<Route>, port: Port)
  {
    exists i | 0 <= i < |rs| :: rs[i].port == port
  }

  ghost predicate ConvergesAt(wanted: map<Port, Publication>, refuse: Refusals, before: map<Port, Active>,
                              after: map<Port, Active>, port: Port)
  {
    && (port in after <==> port in wanted && (port in before || Grants(refuse, port)))
    && (port in after && port in wanted ==> after[port].publication == wanted[port])
    && (port in after && port in before ==>
          after[port].ipv4 == before[port].ipv4 && after[port].ipv6 == before[port].ipv6)
  }

  /** What Apply does to the active ports: exactly the wanted ports that were
      active or can be bound, and never another socket for a port kept. */
  ghost predicate Converges(wanted: map<Port, Publication>, refuse: Refusals, before: map<Port, Active>,
                            after: map<Port, Active>)
  {
    forall port: Port :: ConvergesAt(wanted, refuse, before, after, port)
  }

  /** The reconciler and its sockets between two calls. */
  datatype Snapshot = Snapshot(open: set<Socket>, active: map<Port, Active>)

  datatype Step = ApplyStep(publications: seq<Publication>, refuse: Refusals) | CloseStep(again: bool)

  ghost function PairsOf(active: map<Port, Active>): set<Socket>
  {
    (set port | port in active :: active[port].ipv4) + (set port | port in active :: active[port].ipv6)
  }

  /** The ports of one map that the other does not have. */
  ghost function Beyond(active: map<Port, Active>, other: map<Port, Active>): map<Port, Active>
  {
    map port | port in active && port !in other :: active[port]
  }

  /** A pair that was bound for the port while other sockets were open. */
  ghost predicate BoundFor(open: set<Socket>, a: Active, port: Port)
  {
    && a.ipv4 !in open && a.ipv4.family == V4 && a.ipv4.port == port
    && a.ipv6 !in open && a.ipv6.family == V6 && a.ipv6.port == port
  }

  /** What a call does to the sockets: Apply closes the pairs of the ports it
      gives up and opens a pair for each port it takes; the first Close closes
      the pair of every port. */
  ghost predicate Steps(before: Snapshot, step: Step, after: Snapshot)
  {
    match step
    case ApplyStep(publications, refuse) =>
      var given, taken := Beyond(before.active, after.active), Beyond(after.active, before.active);
      && Converges(Wanted(publications), refuse, before.active, after.active)
      && after.open == before.open - PairsOf(given) + PairsOf(taken)
      && forall port | port in taken :: BoundFor(before.open, taken[port], port)
    case CloseStep(again) =>
      after == if again then before else Snapshot(before.open - PairsOf(before.active), map[])
  }

  /** Every socket of a pair belongs to its own port. */
  ghost predicate OwnPorts(active: map<Port, Active>)
  {
    forall port | port in active ::
      && active[port].ipv4.family == V4 && active[port].ipv4.port == port
      && active[port].ipv6.family == V6 && active[port].ipv6.port == port
  }

  lemma PairMember(active: map<Port, Active>, s: Socket)
    requires OwnPorts(active)
    ensures s in PairsOf(active) <==> s.port in active && (s == active[s.port].ipv4 || s == active[s.port].ipv6)
  {
  }

  lemma PairedOpen(open: set<Socket>, active: map<Port, Active>)
    requires Paired(open, active)
    ensures open == PairsOf(active)
  {
  }

  /** Ports in both maps keep their two sockets. */
  ghost predicate KeepsPairs(before: map<Port, Active>, after: map<Port, Active>)
  {
    forall port | port in before && port in after ::
      after[port].ipv4 == before[port].ipv4 && after[port].ipv6 == before[port].ipv6
  }

  lemma ConvergesKeeps(wanted: map<Port, Publication>, refuse: Refusals, before: map<Port, Active>, after: map<Port, Active>)
    requires Converges(wanted, refuse, before, after)
    ensures KeepsPairs(before, after)
    ensures forall port | port in after :: port in wanted && after[port].publication == wanted[port]
  {
    hide Grants;
    forall port | port in after
      ensures port in wanted && after[port].publication == wanted[port]
      ensures port in before ==> after[port].ipv4 == before[port].ipv4 && after[port].ipv6 == before[port].ipv6
    {
      assert ConvergesAt(wanted, refuse, before, after, port);
    }
  }

  /** Giving up and taking pairs leads from the pairs of one map to those of the
      other. */
  lemma PairsMove(before: map<Port, Active>, after: map<Port, Active>)
    requires OwnPorts(before) && OwnPorts(after) && KeepsPairs(before, after)
    ensures PairsOf(after) == PairsOf(before) - PairsOf(Beyond(before, after)) + PairsOf(Beyond(after, before))
  {
    hide PairsOf;
    var given, taken := Beyond(before, after), Beyond(after, before);
    forall s ensures s in PairsOf(after) <==> s in PairsOf(before) - PairsOf(given) + PairsOf(taken) {
      PairMember(before, s);
      PairMember(after, s);
      PairMember(given, s);
      PairMember(taken, s);
    }
  }

  /** The sockets between two states in which every port has its pair. */
  lemma PairedStep(publications: seq<Publication>, refuse: Refusals, before: Snapshot, after: Snapshot)
    requires Paired(before.open, before.active) && Paired(after.open, after.active)
    requires Converges(Wanted(publications), refuse, before.active, after.active)
    requires forall port | port in after.active && port !in before.active ::
               after.active[port].ipv4 !in before.open && after.active[port].ipv6 !in before.open
    ensures Steps(before, ApplyStep(publications, refuse), after)
  {
    hide Converges, Wanted, PairsOf;
    PairedOpen(before.open, before.active);
    PairedOpen(after.open, after.active);
    ConvergesKeeps(Wanted(publications), refuse, before.active, after.active);
    PairsMove(before.active, after.active);
  }

  /** What one round of the second loop does. */
  ghost predicate Opens(p: Publication, refuse: Refusals, before: map<Port, Active>, after: map<Port, Active>, r: Route)
  {
    && ConvergesAt(map[p.port := p], refuse, before, after, p.port)
    && (forall port: Port | port != p.port :: port in after <==> port in before)
    && (forall port: Port | port != p.port && port in before :: after[port] == before[port])
    && r == Route(p.port, p.target, p.sources, if p.port in after then Listening else Conflict,
                  if p.port in after then "" else RefusalText(refuse, p.port))
  }

  /** The state of the second loop of Apply with some ports still to do. */
  ghost predicate Midway(wanted: map<Port, Publication>, refuse: Refusals, first: map<Port, Active>,
                         now: map<Port, Active>, rest: set<Port>, rs: seq<Route>)
  {
    && (forall port: Port | port !in rest :: ConvergesAt(wanted, refuse, first, now, port))
    && (forall port: Port | port in rest :: port in now <==> port in first)
    && (forall port: Port | port in rest && port in now :: now[port] == first[port])
    && (forall i | 0 <= i < |rs| :: rs[i].port !in rest && RouteFits(wanted, now, refuse, rs[i]))
    && (forall i, j | 0 <= i < j < |rs| :: rs[i].port != rs[j].port)
    && (forall port | port in wanted && port !in rest :: RoutedAt(rs, port))
  }

  lemma MidwayNext(wanted: map<Port, Publication>, refuse: Refusals, first: map<Port, Active>, now: map<Port, Active>,
                   rest: set<Port>, rs: seq<Route>, port: Port, next: map<Port, Active>, r: Route)
    requires Midway(wanted, refuse, first, now, rest, rs) && port in rest && port in wanted && wanted[port].port == port
    requires Opens(wanted[port], refuse, now, next, r)
    ensures Midway(wanted, refuse, first, next, rest - {port}, rs + [r])
  {
    hide Grants, RefusalText, RoutedAt;
    RoutedGrows(rs, r);
    var left, more := rest - {port}, rs + [r];
    forall other: Port | other !in left ensures ConvergesAt(wanted, refuse, first, next, other) {
      if other != port { assert ConvergesAt(wanted, refuse, first, now, other); }
    }
    forall i | 0 <= i < |more| ensures more[i].port !in left && RouteFits(wanted, next, refuse, more[i]) {
      if i < |rs| { assert more[i] == rs[i] && RouteFits(wanted, now, refuse, rs[i]); }
    }
  }

  lemma RoutedGrows(rs: seq<Route>, r: Route)
    ensures RoutedAt(rs + [r], r.port)
    ensures forall port | RoutedAt(rs, port) :: RoutedAt(rs + [r], port)
  {
    assert (rs + [r])[|rs|] == r;
    forall port | RoutedAt(rs, port) ensures RoutedAt(rs + [r], port) {
      var i :| 0 <= i < |rs| && rs[i].port == port;
      assert (rs + [r])[i].port == port;
    }
  }

  class Reconciler {
    const sockets: Sockets
    var active: map<Port, Active>
    var status: RouteStatus
    var closed: bool

    ghost predicate Valid()
      reads this, sockets
    {
      && Paired(sockets.open, active)
      && forall s | s in sockets.open :: s.number < sockets.issued
    }

    ghost function Snap(): Snapshot
      reads this, sockets
    {
      Snapshot(sockets.open, active)
    }

    constructor (sockets: Sockets)
      requires sockets.open == {}
      ensures Valid() && Snap() == Snapshot({}, map[]) && !closed && this.sockets == sockets
    {
      this.sockets := sockets;
      active := map[];
      status := RouteStatus("", [], []);
      closed := false;
    }

    method CloseRoute(port: Port)
      requires Valid() && port in active
      modifies this`active, sockets`open
      ensures Valid() && active == old(active) - {port}
    {
      var route := active[port];
      sockets.Close(route.ipv4);
      sockets.Close(route.ipv6);
      active := active - {port};
    }

    /** The first loop of Apply: close the routes of ports no longer wanted. */
    method CloseUnwanted(wanted: map<Port, Publication>)
      requires Valid()
      modifies this`active, sockets`open
      ensures Valid()
      ensures active == map port | port in old(active) && port in wanted :: old(active)[port]
    {
      var rest := active.Keys;
      while rest != {}
        invariant Valid() && rest <= active.Keys <= old(active).Keys
        invariant forall port | port in active :: active[port] == old(active)[port]
        invariant forall port | port in old(active) :: port in active <==> port in rest || port in wanted
        decreases rest
      {
        var port :| port in rest;
        rest := rest - {port};
        if port !in wanted {
          CloseRoute(port);
        }
      }
    }

    /** One round of the second loop: keep the pair of the port, or bind one. */
    method Open(p: Publication, refuse: Refusals) returns (r: Route)
      requires Valid()
      modifies this`active, sockets
      ensures Valid() && Opens(p, refuse, old(active), active, r) && sockets.issued >= old(sockets.issued)
      ensures p.port in active && p.port !in old(active) ==> Since(old(sockets.issued), active[p.port])
    {
      if p.port in active {
        active := active[p.port := active[p.port].(publication := p)];
        return Route(p.port, p.target, p.sources, Listening, "");
      }
      var ipv4, ipv6, error := sockets.BindPair(p.port, refuse);
      if ipv4.None? {
        return Route(p.port, p.target, p.sources, Conflict, error);
      }
      active := active[p.port := Active(p, ipv4.value, ipv6.value)];
      return Route(p.port, p.target, p.sources, Listening, "");
    }

    /** The second loop of Apply, over the wanted ports in any order. */
    method OpenWanted(wanted: map<Port, Publication>, refuse: Refusals) returns (routes: seq<Route>)
      requires Valid() && active.Keys <= wanted.Keys
      requires forall port | port in wanted :: wanted[port].port == port
      modifies this`active, sockets
      ensures Valid() && Midway(wanted, refuse, old(active), active, {}, routes)
      ensures forall port | port in active && port !in old(active) :: Since(old(sockets.issued), active[port])
    {
      hide Midway, Opens, Paired;
      routes := [];
      var rest := wanted.Keys;
      MidwayFirst(wanted, refuse, active);
      while rest != {}
        invariant Valid() && rest <= wanted.Keys
        invariant Midway(wanted, refuse, old(active), active, rest, routes)
        invariant sockets.issued >= old(sockets.issued)
        invariant forall port | port in active && port !in old(active) :: Since(old(sockets.issued), active[port])
        decreases rest
      {
        var port :| port in rest;
        ghost var was := active;
        var route := Open(wanted[port], refuse);
        OpensOne(wanted[port], refuse, was, active, route);
        MidwayNext(wanted, refuse, old(active), was, rest, routes, port, active, route);
        rest := rest - {port};
        routes := routes + [route];
      }
    }

    /** Makes the listeners match the wanted publications. */
    method Apply(desired: Desired, refuse: Refusals)
      requires Valid()
      modifies this`active, this`status, sockets
      ensures Valid()
      ensures Steps(old(Snap()), ApplyStep(desired.publications, refuse), Snap())
      ensures RoutesFit(Wanted(desired.publications), active, refuse, status.routes)
      ensures status.warnings == desired.warnings && status.eventStream == old(status).eventStream
    {
      hide Paired;
      var wanted: map<Port, Publication> := map[];
      for k := 0 to |desired.publications|
        invariant wanted == Wanted(desired.publications[..k])
      {
        var publication := desired.publications[k];
        assert desired.publications[..k + 1][..k] == desired.publications[..k];
        wanted := wanted[publication.port := publication];
      }
      assert desired.publications[..|desired.publications|] == desired.publications;
      CloseUnwanted(wanted);
      ghost var kept := active;
      var routes := OpenWanted(wanted, refuse);
      ClosedThenOpened(wanted, refuse, old(active), kept, active, routes);
      assert forall port | port in active && port !in old(active) :: Since(old(sockets.issued), active[port]);
      PairedStep(desired.publications, refuse, old(Snap()), Snap());
      SortedRoutesFit(wanted, active, refuse, routes);
      status := RouteStatus(status.eventStream, Sort(RouteLe, routes), desired.warnings);
    }

    /** The publication that a connection accepted on a port is sent to. */
    function ActivePublication(port: Port): (r: Option<Publication>)
      requires Valid()
      reads this, sockets
      ensures r.Some? <==> exists s | s in sockets.open :: s.port == port
      ensures r.Some? ==> r.value.port == port
    {
      assert port in active ==> active[port].ipv4 in sockets.open;
      if port in active then Some(active[port].publication) else None
    }

    /** Closes every route the first time it is called and nothing later. */
    method Close()
      requires Valid()
      modifies this`active, this`closed, sockets`open
      ensures Valid() && closed
      ensures Steps(old(Snap()), CloseStep(old(closed)), Snap())
      ensures sockets.open == {} <==> !old(closed) || old(active) == map[]
    {
      PairedOpen(sockets.open, active);
      if !closed {
        closed := true;
        CloseUnwanted(map[]);
      }
      assert forall port | port in active :: active[port].ipv4 in sockets.open;
      assert active == map[] ==> sockets.open == {};
    }
  }

  /** Both sockets were bound after so many others. */
  predicate Since(issued: nat, a: Active)
  {
    a.ipv4.number >= issued && a.ipv6.number >= issued
  }

  lemma OpensOne(p: Publication, refuse: Refusals, before: map<Port, Active>, after: map<Port, Active>, r: Route)
    requires Opens(p, refuse, before, after, r)
    ensures forall port: Port | port != p.port :: port in after <==> port in before
    ensures forall port: Port | port != p.port && port in before :: after[port] == before[port]
    ensures p.port in before && p.port in after ==>
              after[p.port].ipv4 == before[p.port].ipv4 && after[p.port].ipv6 == before[p.port].ipv6
  {
  }

  lemma MidwayFirst(wanted: map<Port, Publication>, refuse: Refusals, first: map<Port, Active>)
    requires first.Keys <= wanted.Keys
    ensures Midway(wanted, refuse, first, first, wanted.Keys, [])
  {
  }

  lemma ClosedThenOpened(wanted: map<Port, Publication>, refuse: Refusals, before: map<Port, Active>,
                         kept: map<Port, Active>, after: map<Port, Active>, rs: seq<Route>)
    requires kept == map port | port in before && port in wanted :: before[port]
    requires Midway(wanted, refuse, kept, after, {}, rs)
    ensures Converges(wanted, refuse, before, after)
  {
    hide Grants, RouteFits, RoutedAt;
    forall port: Port ensures ConvergesAt(wanted, refuse, before, after, port) {
      assert ConvergesAt(wanted, refuse, kept, after, port);
    }
  }

  predicate RouteLe(a: Route, b: Route) { a.port <= b.port }

  lemma SortedPorts(rs: seq<Route>)
    requires forall i, j | 0 <= i < j < |rs| :: rs[i].port != rs[j].port
    ensures forall i, j | 0 <= i < j < |rs| :: Sort(RouteLe, rs)[i].port < Sort(RouteLe, rs)[j].port
    ensures forall r :: r in Sort(RouteLe, rs) <==> r in rs
  {
    SortSorted(RouteLe, rs, set r | r in rs);
    SortDistinct(RouteLe, rs);
    PortsRise(rs, Sort(RouteLe, rs));
  }

  lemma PortsRise(rs: seq<Route>, sorted: seq<Route>)
    requires forall i, j | 0 <= i < j < |rs| :: rs[i].port != rs[j].port
    requires SortedBy(RouteLe, sorted) && Distinct(sorted) && forall r | r in sorted :: r in rs
    ensures forall i, j | 0 <= i < j < |sorted| :: sorted[i].port < sorted[j].port
  {
    forall i, j | 0 <= i < j < |sorted| ensures sorted[i].port < sorted[j].port {
      assert RouteLe(sorted[i], sorted[j]);
      assert sorted[i] in rs && sorted[j] in rs;
    }
  }

  lemma SortedRoutesFit(wanted: map<Port, Publication>, active: map<Port, Active>, refuse: Refusals, rs: seq<Route>)
    requires forall i | 0 <= i < |rs| :: RouteFits(wanted, active, refuse, rs[i])
    requires forall i, j | 0 <= i < j < |rs| :: rs[i].port != rs[j].port
    requires forall port | port in wanted :: RoutedAt(rs, port)
    ensures RoutesFit(wanted, active, refuse, Sort(RouteLe, rs))
  {
    hide RouteFits, Sort;
    var sorted := Sort(RouteLe, rs);
    SortedPorts(rs);
    forall i | 0 <= i < |sorted| ensures RouteFits(wanted, active, refuse, sorted[i]) { assert sorted[i] in rs; }
    forall port | port in wanted ensures RoutedAt(sorted, port) {
      assert RoutedAt(rs, port);
      var i :| 0 <= i < |rs| && rs[i].port == port;
      assert rs[i] in sorted;
    }
  }

  // ---- runs -----------------------------------------------------------------

  ghost predicate Run(steps: seq<Step>, states: seq<Snapshot>)
  {
    && |states| == |steps| + 1
    && states[0] == Snapshot({}, map[])
    && forall i | 0 <= i < |steps| :: Steps(states[i], steps[i], states[i + 1])
  }

  lemma OpenPairs(open: set<Socket>, active: map<Port, Active>)
    requires OwnPorts(active) && open == PairsOf(active) && forall port | port in active :: active[port].publication.port == port
    ensures Paired(open, active)
  {
    forall s | s in open ensures s.port in active && (s == active[s.port].ipv4 || s == active[s.port].ipv6) {
      PairMember(active, s);
    }
    forall port | port in active ensures active[port].ipv4 in open && active[port].ipv6 in open {}
  }

  /** Closing what is given up and binding what is taken keeps the pairs. */
  lemma StepKeepsPairs(before: Snapshot, step: Step, after: Snapshot)
    requires Paired(before.open, before.active) && Steps(before, step, after)
    ensures Paired(after.open, after.active)
  {
    hide Converges, Wanted, PairsOf;
    PairedOpen(before.open, before.active);
    if step.ApplyStep? {
      ConvergesKeeps(Wanted(step.publications), step.refuse, before.active, after.active);
      assert OwnPorts(after.active) by {
        var taken := Beyond(after.active, before.active);
        forall port | port in after.active && port !in before.active ensures BoundFor(before.open, after.active[port], port) {
          assert port in taken;
        }
      }
      PairsMove(before.active, after.active);
      OpenPairs(after.open, after.active);
    }
  }

  /** After any run of calls the open sockets are exactly the pairs of the
      active ports. */
  lemma {:induction false} RunKeepsPairs(steps: seq<Step>, states: seq<Snapshot>)
    requires Run(steps, states)
    ensures Paired(states[|steps|].open, states[|steps|].active)
  {
    if steps != [] {
      var n := |steps| - 1;
      assert Run(steps[..n], states[..n + 1]);
      RunKeepsPairs(steps[..n], states[..n + 1]);
      assert Steps(states[n], steps[n], states[n + 1]);
      StepKeepsPairs(states[n], steps[n], states[n + 1]);
    }
  }

  /** A port that every later Apply wants keeps its two sockets, whatever the
      binds of other ports do, until a Close that closes. */
  lemma {:induction false} NeverRebound(steps: seq<Step>, states: seq<Snapshot>, from: nat, port: Port)
    requires Run(steps, states) && from <= |steps| && port in states[from].active
    requires forall i | from <= i < |steps| ::
               if steps[i].ApplyStep? then port in Wanted(steps[i].publications) else steps[i].again
    ensures port in states[|steps|].active
    ensures states[|steps|].active[port].ipv4 == states[from].active[port].ipv4
    ensures states[|steps|].active[port].ipv6 == states[from].active[port].ipv6
    decreases |steps|
  {
    if from < |steps| {
      var n := |steps| - 1;
      assert Run(steps[..n], states[..n + 1]);
      NeverRebound(steps[..n], states[..n + 1], from, port);
      assert Steps(states[n], steps[n], states[n + 1]);
      if steps[n].ApplyStep? {
        assert ConvergesAt(Wanted(steps[n].publications), steps[n].refuse, states[n].active, states[n + 1].active, port);
      }
    }
  }

  /** Discovered publications have distinct ports, so none is dropped. */
  lemma {:induction false} WantedKeepsAll(ps: seq<Publication>, i: nat)
    requires i < |ps| && forall j, k | 0 <= j < k < |ps| :: ps[j].port < ps[k].port
    ensures ps[i].port in Wanted(ps) && Wanted(ps)[ps[i].port] == ps[i]
  {
    if i < |ps| - 1 { WantedKeepsAll(ps[..|ps| - 1], i); }
  }

  function GrantAll(family: Family, port: Port): Option<string> { None }

  lemma OnlyWanted(p: Publication, active: map<Port, Active>)
    requires Converges(Wanted([p]), GrantAll, map[], active)
    ensures |active| == 1
  {
    var ps := [p];
    assert ps[..|ps| - 1] == [] && Wanted([]) == map[];
    assert Wanted(ps) == map[p.port := p];
    forall port: Port ensures port in active.Keys <==> port == p.port {
      assert ConvergesAt(Wanted(ps), GrantAll, map[], active, port);
    }
    assert active.Keys == {p.port} && |active| == |active.Keys|;
  }

  /** A second Close leaves open what an Apply between the two calls bound. */
  method CloseTwice(p: Publication) returns (open: set<Socket>)
    ensures |open| == 2
  {
    hide Converges, Wanted, PairsOf, RoutesFit, Beyond, BoundFor, Paired;
    var sockets := new Sockets();
    var reconciler := new Reconciler(sockets);
    reconciler.Close();
    ghost var closed := reconciler.Snap();
    assert closed.active == map[];
    reconciler.Apply(Desired([p], []), GrantAll);
    OnlyWanted(p, reconciler.active);
    reconciler.Close();
    open := sockets.open;
    TwoSocketsPerPort(open, reconciler.active);
  }
}
