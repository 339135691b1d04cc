/** How the status of a box is derived from its containers: from one listing of
    all managed containers, and from the containers of one Compose project
    (internal/compose/client.go and internal/sandbox/manager.go). */
module ComposeStatus {
  import opened Ordering
  import opened PortForward
  import opened Allocator
  import opened Records

  datatype RuntimeState = Absent | Running | Halted

  // ---- one project ----------------------------------------------------------

  /** The service label of a container; any other text is Other. */
  datatype Service = Docker | Webtop | Loopback | Interconnect | Portbridge | Gateway | Other(name: string)

  /** Whether the state reads "running" and the health "healthy". */
  datatype ContainerStatus = ContainerStatus(service: Service, running: bool, healthy: bool)

  datatype ProjectStatus = ProjectStatus(present: bool, state: RuntimeState, containers: seq<ContainerStatus>)

  ghost predicate SomeRunning(cs: seq<ContainerStatus>)
  {
    exists i | 0 <= i < |cs| :: cs[i].running
  }

  method DeriveStatus(cs: seq<ContainerStatus>) returns (r: ProjectStatus)
    ensures r.containers == cs && (r.present <==> cs != [])
    ensures r.state == if cs == [] then Absent else if SomeRunning(cs) then Running else Halted
  {
    if |cs| == 0 {
      return ProjectStatus(false, Absent, []);
    }
    r := ProjectStatus(true, Halted, cs);
    for k := 0 to |cs|
      invariant r.state == Halted && !SomeRunning(cs[..k])
      invariant r.present && r.containers == cs
    {
      assert cs[..k + 1] == cs[..k] + [cs[k]];
      if cs[k].running {
        return r.(state := Running);
      }
    }
    assert cs[..|cs|] == cs;
  }

  /** The last container of a service: later ones overwrite its flag. */
  function LastOf(cs: seq<ContainerStatus>, service: Service): Option<ContainerStatus>
  {
    if cs == [] then None
    else if cs[|cs| - 1].service == service then Some(cs[|cs| - 1])
    else LastOf(cs[..|cs| - 1], service)
  }

  predicate Up(c: Option<ContainerStatus>) { c.Some? && c.value.running && c.value.healthy }

  predicate ServicesUp(cs: seq<ContainerStatus>)
  {
    && Up(LastOf(cs, Docker))
    && Up(LastOf(cs, Webtop))
    && Up(LastOf(cs, Loopback))
    && Up(LastOf(cs, Interconnect))
  }

  predicate BridgeReady(cs: seq<ContainerStatus>, ports: bool)
  {
    if LastOf(cs, Portbridge).None? then !ports else LastOf(cs, Portbridge).value.running
  }

  /** The flags that the loop of ReadyFor keeps. */
  datatype Flags = Flags(docker: bool, webtop: bool, loopback: bool, interconnect: bool, portbridge: bool)

  function FlagsOf(cs: seq<ContainerStatus>, ports: bool): Flags
  {
    Flags(Up(LastOf(cs, Docker)), Up(LastOf(cs, Webtop)), Up(LastOf(cs, Loopback)), Up(LastOf(cs, Interconnect)),
          BridgeReady(cs, ports))
  }

  function Overwrite(f: Flags, c: ContainerStatus): Flags
  {
    var up := c.running && c.healthy;
    match c.service
    case Docker => f.(docker := up)
    case Webtop => f.(webtop := up)
    case Loopback => f.(loopback := up)
    case Interconnect => f.(interconnect := up)
    case Portbridge => f.(portbridge := c.running)
    case _ => f
  }

  lemma LastOfNext(cs: seq<ContainerStatus>, c: ContainerStatus)
    ensures forall service :: LastOf(cs + [c], service) == if c.service == service then Some(c) else LastOf(cs, service)
  {
    assert (cs + [c])[..|cs|] == cs;
  }

  lemma OverwriteNext(cs: seq<ContainerStatus>, c: ContainerStatus, ports: bool)
    ensures FlagsOf(cs + [c], ports) == Overwrite(FlagsOf(cs, ports), c)
  {
    LastOfNext(cs, c);
    hide LastOf;
  }

  method ReadyFor(status: ProjectStatus, ports: bool) returns (r: bool)
    ensures r <==> status.present && status.state == Running
                   && ServicesUp(status.containers) && BridgeReady(status.containers, ports)
  {
    if !status.present || status.state != Running {
      return false;
    }
    hide Overwrite;
    var cs := status.containers;
    var flags := Flags(false, false, false, false, !ports);
    for k := 0 to |cs|
      invariant flags == FlagsOf(cs[..k], ports)
    {
      assert cs[..k + 1] == cs[..k] + [cs[k]];
      OverwriteNext(cs[..k], cs[k], ports);
      flags := Overwrite(flags, cs[k]);
    }
    assert cs[..|cs|] == cs;
    return flags.docker && flags.webtop && flags.loopback && flags.interconnect && flags.portbridge;
  }

  // ---- all managed containers -----------------------------------------------

  /** One line of the container listing: whether the state reads "running" and
      the status text contains "(healthy)", the box label, and the port that
      the published HTTP port of the desktop parses to. */
  datatype Line =
    | Blank
    | Short
    | Line(running: bool, healthy: bool, box: string, worktree: string, projectName: string, service: Service,
           httpPort: Option<nat>)

  datatype ManagedProject = ManagedProject(
    id: string,
    worktree: string,
    projectName: string,
    state: RuntimeState,
    ports: Block,
    gatewayEnabled: bool,
    portBridgeRunning: bool,
    healthy: bool)

  datatype Accumulator = Accumulator(
    project: ManagedProject,
    running: bool,
    docker: bool,
    webtop: bool,
    loopback: bool,
    interconnect: bool)

  const NOTHING := Accumulator(ManagedProject("", "", "", Halted, Block(0, 0), false, false, false), false, false, false, false, false)

  predicate LineUp(l: Line)
    requires l.Line?
  {
    l.running && l.healthy
  }

  function Enter(l: Line): Accumulator
    requires l.Line?
  {
    Accumulator(ManagedProject(l.box, l.worktree, l.projectName, Halted, Block(0, 0), false, false, false),
                false, false, false, false, false)
  }

  function CountProject(p: ManagedProject, l: Line): ManagedProject
    requires l.Line?
  {
    if l.service == Gateway then p.(gatewayEnabled := true)
    else if l.service == Portbridge then p.(portBridgeRunning := l.running)
    else if l.service == Webtop && l.httpPort.Some? then p.(ports := Block(l.httpPort.value, 10))
    else p
  }

  /** What one line adds to the accumulator of its box: the last line of a
      service decides, and any running container makes the box run. */
  function Count(entry: Accumulator, l: Line): Accumulator
    requires l.Line?
  {
    Accumulator(
      CountProject(entry.project, l),
      entry.running || l.running,
      if l.service == Docker then LineUp(l) else entry.docker,
      if l.service == Webtop then LineUp(l) else entry.webtop,
      if l.service == Loopback then LineUp(l) else entry.loopback,
      if l.service == Interconnect then LineUp(l) else entry.interconnect)
  }

  function Finish(entry: Accumulator): ManagedProject
  {
    entry.project.(state := if entry.running then Running else entry.project.state,
                   healthy := entry.docker && entry.webtop && entry.loopback && entry.interconnect)
  }

  /** The lines of one box, in order. */
  function Mine(lines: seq<Line>, box: string): (r: seq<Line>)
    ensures forall i | 0 <= i < |r| :: r[i].Line? && r[i].box == box
  {
    if lines == [] then []
    else
      var last := lines[|lines| - 1];
      Mine(lines[..|lines| - 1], box) + (if last.Line? && last.box == box then [last] else [])
  }

  function Fold(mine: seq<Line>): Accumulator
    requires mine != [] && forall i | 0 <= i < |mine| :: mine[i].Line?
  {
    var n := |mine| - 1;
    Count(if n == 0 then Enter(mine[0]) else Fold(mine[..n]), mine[n])
  }

  ghost predicate GroupedAt(grouped: map<string, Accumulator>, lines: seq<Line>, box: string)
  {
    && (box in grouped <==> box != "" && Mine(lines, box) != [])
    && (box in grouped ==> grouped[box] == Fold(Mine(lines, box)))
  }

  /** Every box has what its own lines, interleaved with others in any way, add
      up to. */
  ghost predicate Grouped(grouped: map<string, Accumulator>, lines: seq<Line>)
  {
    forall box: string :: GroupedAt(grouped, lines, box)
  }

  /** Any short line fails the whole listing. */
  method Group(lines: seq<Line>) returns (r: Option<map<string, Accumulator>>)
    ensures r.None? <==> Short in lines
    ensures r.Some? ==> Grouped(r.value, lines)
  {
    hide Count, Enter, Grouped;
    var grouped: map<string, Accumulator> := map[];
    NothingGrouped();
    for k := 0 to |lines|
      invariant Short !in lines[..k]
      invariant Grouped(grouped, lines[..k])
    {
      var line := lines[k];
      assert lines[..k + 1] == lines[..k] + [line];
      if line.Short? {
        return None;
      }
      GroupedNext(grouped, lines[..k], line);
      if line.Line? && line.box != "" {
        var entry := if line.box in grouped then grouped[line.box] else Enter(line);
        grouped := grouped[line.box := Count(entry, line)];
      }
    }
    assert lines[..|lines|] == lines;
    return Some(grouped);
  }

  lemma NothingGrouped()
    ensures Grouped(map[], [])
  {
  }

  lemma GroupedNext(grouped: map<string, Accumulator>, lines: seq<Line>, line: Line)
    requires Grouped(grouped, lines) && !line.Short?
    ensures Grouped(if line.Line? && line.box != ""
                    then grouped[line.box := Count(if line.box in grouped then grouped[line.box] else Enter(line), line)]
                    else grouped, lines + [line])
  {
    hide Count, Enter, Fold;
    var next := if line.Line? && line.box != ""
                then grouped[line.box := Count(if line.box in grouped then grouped[line.box] else Enter(line), line)]
                else grouped;
    forall box: string ensures GroupedAt(next, lines + [line], box) {
      assert GroupedAt(grouped, lines, box);
      MineNext(lines, line, box);
    }
  }

  lemma MineNext(lines: seq<Line>, line: Line, box: string)
    ensures Mine(lines + [line], box) == if line.Line? && line.box == box then Mine(lines, box) + [line] else Mine(lines, box)
    ensures line.Line? && line.box == box ==>
              Fold(Mine(lines + [line], box)) ==
              Count(if Mine(lines, box) == [] then Enter(line) else Fold(Mine(lines, box)), line)
  {
    hide Count, Enter;
    assert (lines + [line])[..|lines|] == lines;
    var mine := Mine(lines, box);
    assert (mine + [line])[..|mine|] == mine;
  }

  function Summary(mine: seq<Line>): ManagedProject
    requires mine != [] && forall i | 0 <= i < |mine| :: mine[i].Line?
  {
    Finish(Fold(mine))
  }

  // ---- what a listing says of its lines -------------------------------------

  ghost predicate LineOf(lines: seq<Line>, i: nat, box: string)
  {
    i < |lines| && lines[i].Line? && lines[i].box == box
  }

  /** The last line of a service of the box, which decides about it. */
  ghost predicate LastLine(lines: seq<Line>, i: nat, box: string, service: Service)
  {
    && LineOf(lines, i, box) && lines[i].service == service
    && forall j: nat | i < j && LineOf(lines, j, box) :: lines[j].service != service
  }

  ghost predicate ServiceUp(lines: seq<Line>, box: string, service: Service, healthy: bool)
  {
    exists i: nat :: LastLine(lines, i, box, service) && lines[i].running && (healthy ==> lines[i].healthy)
  }

  ghost predicate AnyRuns(lines: seq<Line>, box: string)
  {
    exists i: nat :: LineOf(lines, i, box) && lines[i].running
  }

  ghost predicate HasGateway(lines: seq<Line>, box: string)
  {
    exists i: nat :: LineOf(lines, i, box) && lines[i].service == Gateway
  }

  /** The last line of the desktop that tells its port. */
  ghost predicate PortLine(lines: seq<Line>, i: nat, box: string)
  {
    && TellsPort(lines, i, box)
    && forall j: nat | i < j :: !TellsPort(lines, j, box)
  }

  ghost predicate TellsPort(lines: seq<Line>, i: nat, box: string)
  {
    LineOf(lines, i, box) && lines[i].service == Webtop && lines[i].httpPort.Some?
  }

  /** The block of a box starts at the port of its desktop and holds ten. */
  ghost predicate PortsSay(lines: seq<Line>, box: string, ports: Block)
  {
    && (forall i: nat | PortLine(lines, i, box) :: ports == Block(lines[i].httpPort.value, 10))
    && ((forall i: nat :: !TellsPort(lines, i, box)) ==> ports == Block(0, 0))
  }

  ghost predicate FirstLine(lines: seq<Line>, i: nat, box: string)
  {
    LineOf(lines, i, box) && forall j: nat | j < i :: !LineOf(lines, j, box)
  }

  ghost predicate FirstSays(lines: seq<Line>, box: string, worktree: string, projectName: string)
  {
    exists i: nat :: FirstLine(lines, i, box) && worktree == lines[i].worktree && projectName == lines[i].projectName
  }

  /** What the listing reports of a box, in terms of the lines alone. */
  ghost predicate Describes(lines: seq<Line>, p: ManagedProject)
  {
    && FirstSays(lines, p.id, p.worktree, p.projectName)
    && p.state == (if AnyRuns(lines, p.id) then Running else Halted)
    && (p.healthy <==> ServiceUp(lines, p.id, Docker, true) && ServiceUp(lines, p.id, Webtop, true)
                       && ServiceUp(lines, p.id, Loopback, true) && ServiceUp(lines, p.id, Interconnect, true))
    && (p.portBridgeRunning <==> ServiceUp(lines, p.id, Portbridge, false))
    && (p.gatewayEnabled <==> HasGateway(lines, p.id))
    && PortsSay(lines, p.id, p.ports)
  }

  /** The same of an accumulator on the way. */
  ghost predicate Accumulates(lines: seq<Line>, box: string, a: Accumulator)
  {
    && FirstSays(lines, box, a.project.worktree, a.project.projectName)
    && AddsUp(lines, box, a)
  }

  ghost predicate AddsUp(lines: seq<Line>, box: string, a: Accumulator)
  {
    && a.running == AnyRuns(lines, box)
    && a.docker == ServiceUp(lines, box, Docker, true) && a.webtop == ServiceUp(lines, box, Webtop, true)
    && a.loopback == ServiceUp(lines, box, Loopback, true) && a.interconnect == ServiceUp(lines, box, Interconnect, true)
    && a.project.portBridgeRunning == ServiceUp(lines, box, Portbridge, false)
    && a.project.gatewayEnabled == HasGateway(lines, box)
    && PortsSay(lines, box, a.project.ports)
    && a.project.id == box && a.project.state == Halted
  }

  lemma LineOfNext(lines: seq<Line>, line: Line, box: string)
    ensures forall i: nat :: LineOf(lines + [line], i, box) <==>
              LineOf(lines, i, box) || (i == |lines| && line.Line? && line.box == box)
  {
  }

  lemma ServiceNext(lines: seq<Line>, line: Line, box: string, service: Service, healthy: bool)
    ensures ServiceUp(lines + [line], box, service, healthy) <==>
            if line.Line? && line.box == box && line.service == service then line.running && (healthy ==> line.healthy)
            else ServiceUp(lines, box, service, healthy)
  {
    var more := lines + [line];
    LineOfNext(lines, line, box);
    if line.Line? && line.box == box && line.service == service {
      assert LastLine(more, |lines|, box, service);
      forall i: nat | LastLine(more, i, box, service) ensures i == |lines| {
        assert LineOf(more, |lines|, box);
      }
    } else {
      forall i: nat ensures LastLine(more, i, box, service) <==> LastLine(lines, i, box, service) {
        if LastLine(lines, i, box, service) {
          forall j: nat | i < j && LineOf(more, j, box) ensures more[j].service != service {}
        }
        if LastLine(more, i, box, service) {
          forall j: nat | i < j && LineOf(lines, j, box) ensures lines[j].service != service {
            assert LineOf(more, j, box);
          }
        }
      }
    }
  }

  lemma AnyNext(lines: seq<Line>, line: Line, box: string)
    ensures AnyRuns(lines + [line], box) <==> AnyRuns(lines, box) || (line.Line? && line.box == box && line.running)
    ensures HasGateway(lines + [line], box) <==>
            HasGateway(lines, box) || (line.Line? && line.box == box && line.service == Gateway)
  {
    var more := lines + [line];
    LineOfNext(lines, line, box);
    if line.Line? && line.box == box { assert LineOf(more, |lines|, box); }
    forall i: nat | LineOf(lines, i, box) ensures LineOf(more, i, box) && more[i] == lines[i] {}
  }

  lemma PortsNext(lines: seq<Line>, line: Line, box: string, ports: Block)
    requires PortsSay(lines, box, ports)
    ensures PortsSay(lines + [line], box,
                     if line.Line? && line.box == box && line.service == Webtop && line.httpPort.Some?
                     then Block(line.httpPort.value, 10) else ports)
  {
    var more := lines + [line];
    LineOfNext(lines, line, box);
    forall i: nat ensures TellsPort(more, i, box) <==>
                          TellsPort(lines, i, box)
                          || (i == |lines| && line.Line? && line.box == box && line.service == Webtop && line.httpPort.Some?) {}
    hide TellsPort, LineOf;
    if TellsPort(more, |lines|, box) {
      forall i: nat | PortLine(more, i, box) ensures i == |lines| {
        assert i > |lines| ==> !TellsPort(more, i, box) by { PastTheEnd(more, i, box); }
      }
    } else {
      forall i: nat | PortLine(more, i, box) ensures PortLine(lines, i, box) && i < |lines| && more[i] == lines[i] {
        PastTheEnd(more, i, box);
      }
    }
  }

  lemma PastTheEnd(lines: seq<Line>, i: nat, box: string)
    ensures i >= |lines| ==> !TellsPort(lines, i, box)
  {
  }

  lemma AddsUpNext(lines: seq<Line>, line: Line, box: string, a: Accumulator)
    requires AddsUp(lines, box, a)
    ensures line.Line? && line.box == box ==> AddsUp(lines + [line], box, Count(a, line))
    ensures !(line.Line? && line.box == box) ==> AddsUp(lines + [line], box, a)
  {
    hide AnyRuns, ServiceUp, HasGateway, PortsSay;
    AnyNext(lines, line, box);
    PortsNext(lines, line, box, a.project.ports);
    ServicesNext(lines, line, box);
    if line.Line? && line.box == box {
      CountProjectSays(a.project, line);
      hide CountProject;
    } else {
      hide Count, CountProject;
    }
  }

  lemma ServicesNext(lines: seq<Line>, line: Line, box: string)
    ensures forall service, healthy :: ServiceUp(lines + [line], box, service, healthy) <==>
              if line.Line? && line.box == box && line.service == service then line.running && (healthy ==> line.healthy)
              else ServiceUp(lines, box, service, healthy)
  {
    hide ServiceUp;
    forall service, healthy
      ensures ServiceUp(lines + [line], box, service, healthy) <==>
              if line.Line? && line.box == box && line.service == service then line.running && (healthy ==> line.healthy)
              else ServiceUp(lines, box, service, healthy)
    {
      ServiceNext(lines, line, box, service, healthy);
    }
  }

  lemma CountProjectSays(p: ManagedProject, line: Line)
    requires line.Line?
    ensures var r := CountProject(p, line);
            && r.id == p.id && r.state == p.state
            && r.gatewayEnabled == (p.gatewayEnabled || line.service == Gateway)
            && r.portBridgeRunning == (if line.service == Portbridge then line.running else p.portBridgeRunning)
            && r.ports == if line.service == Webtop && line.httpPort.Some? then Block(line.httpPort.value, 10) else p.ports
  {
  }

  lemma FirstNext(lines: seq<Line>, line: Line, box: string, worktree: string, projectName: string)
    ensures FirstSays(lines, box, worktree, projectName) ==> FirstSays(lines + [line], box, worktree, projectName)
    ensures (forall i: nat :: !LineOf(lines, i, box)) && line.Line? && line.box == box ==>
              FirstSays(lines + [line], box, line.worktree, line.projectName)
  {
    LineOfNext(lines, line, box);
    var more := lines + [line];
    if FirstSays(lines, box, worktree, projectName) {
      var i: nat :| FirstLine(lines, i, box) && worktree == lines[i].worktree && projectName == lines[i].projectName;
      assert FirstLine(more, i, box) && more[i] == lines[i];
    }
    if (forall i: nat :: !LineOf(lines, i, box)) && line.Line? && line.box == box {
      assert FirstLine(more, |lines|, box) && more[|lines|] == line;
    }
  }

  lemma NothingAddsUp(lines: seq<Line>, box: string, line: Line)
    requires line.Line? && line.box == box && forall i: nat :: !LineOf(lines, i, box)
    ensures AddsUp(lines, box, Enter(line))
  {
  }

  lemma {:induction false} FoldAccumulates(lines: seq<Line>, box: string)
    ensures Mine(lines, box) == [] ==> forall i: nat :: !LineOf(lines, i, box)
    ensures Mine(lines, box) != [] ==> Accumulates(lines, box, Fold(Mine(lines, box)))
    decreases |lines|
  {
    hide Count, Enter, AddsUp, Fold, FirstSays;
    if lines != [] {
      var n := |lines| - 1;
      var rest, line := lines[..n], lines[n];
      assert lines == rest + [line];
      FoldAccumulates(rest, box);
      MineNext(rest, line, box);
      LineOfNext(rest, line, box);
      var a := if Mine(rest, box) != [] then Fold(Mine(rest, box)) else if line.Line? then Enter(line) else NOTHING;
      FirstNext(rest, line, box, a.project.worktree, a.project.projectName);
      if line.Line? && line.box == box {
        if Mine(rest, box) == [] {
          NothingAddsUp(rest, box, line);
          EnterSays(line);
        }
        AddsUpNext(rest, line, box, a);
        CountKeeps(a, line);
      } else if Mine(rest, box) != [] {
        AddsUpNext(rest, line, box, a);
      }
    }
  }

  lemma EnterSays(line: Line)
    requires line.Line?
    ensures Enter(line).project.worktree == line.worktree && Enter(line).project.projectName == line.projectName
  {
  }

  /** Each summary describes the lines of its box. */
  lemma SummaryDescribes(lines: seq<Line>, box: string)
    requires Mine(lines, box) != []
    ensures Summary(Mine(lines, box)).id == box && Describes(lines, Summary(Mine(lines, box)))
  {
    FoldAccumulates(lines, box);
    hide Fold, Mine, AnyRuns, ServiceUp, HasGateway, PortsSay, FirstSays;
  }

  /** What every listing has: distinct boxes, and blocks of no negative size. */
  ghost predicate Reported(managed: seq<ManagedProject>)
  {
    && (forall i, j | 0 <= i < j < |managed| :: managed[i].id != managed[j].id)
    && (forall i | 0 <= i < |managed| :: managed[i].ports.size >= 0 && managed[i].state != Absent)
  }

  method ListManaged(lines: seq<Line>) returns (r: Option<seq<ManagedProject>>)
    ensures r.None? <==> Short in lines
    ensures r.Some? ==> forall i, j | 0 <= i < j < |r.value| :: StringLess(r.value[i].id, r.value[j].id)
    ensures r.Some? ==> forall i | 0 <= i < |r.value| ::
              r.value[i].id != "" && Mine(lines, r.value[i].id) != [] && r.value[i] == Summary(Mine(lines, r.value[i].id))
    ensures r.Some? ==> forall box | box != "" && Mine(lines, box) != [] :: Summary(Mine(lines, box)) in r.value
    ensures r.Some? ==> forall i | 0 <= i < |r.value| :: Describes(lines, r.value[i])
    ensures r.Some? ==> forall box: string, i: nat | box != "" && LineOf(lines, i, box) ::
              exists k :: 0 <= k < |r.value| && r.value[k].id == box
    ensures r.Some? ==> Reported(r.value)
  {
    hide Fold, Mine, Describes, LineOf;
    var grouped := Group(lines);
    if grouped.None? {
      return None;
    }
    var ids := SortedStrings(grouped.value.Keys);
    var projects: seq<ManagedProject> := [];
    for k := 0 to |ids|
      invariant |projects| == k
      invariant forall box :: box in ids <==> box in grouped.value
      invariant forall i | 0 <= i < k ::
                  && ids[i] in ids && projects[i].id == ids[i] != "" && Mine(lines, ids[i]) != []
                  && projects[i] == Summary(Mine(lines, ids[i])) && projects[i].ports.size >= 0 && projects[i].state != Absent
    {
      assert ids[k] in ids && GroupedAt(grouped.value, lines, ids[k]);
      FoldKeepsId(Mine(lines, ids[k]));
      projects := projects + [Finish(grouped.value[ids[k]])];
    }
    forall box | box != "" && Mine(lines, box) != [] ensures Summary(Mine(lines, box)) in projects {
      assert GroupedAt(grouped.value, lines, box);
      assert box in ids;
      var i :| 0 <= i < |ids| && ids[i] == box;
      assert projects[i] == Summary(Mine(lines, box));
    }
    forall i | 0 <= i < |projects| ensures Describes(lines, projects[i]) {
      SummaryDescribes(lines, projects[i].id);
    }
    forall box: string, i: nat | box != "" && LineOf(lines, i, box)
      ensures exists k :: 0 <= k < |projects| && projects[k].id == box
    {
      FoldAccumulates(lines, box);
      SummaryDescribes(lines, box);
    }
    return Some(projects);
  }

  lemma CountKeeps(entry: Accumulator, l: Line)
    requires l.Line?
    ensures var p := Count(entry, l).project;
            && p.id == entry.project.id && p.worktree == entry.project.worktree
            && p.projectName == entry.project.projectName && p.state == entry.project.state
            && (p.ports == entry.project.ports || p.ports.size == 10)
  {
  }

  /** The identity of a project comes from the first line of the box. */
  lemma {:induction false} FoldKeepsId(mine: seq<Line>)
    requires mine != [] && forall i | 0 <= i < |mine| :: mine[i].Line?
    ensures var p := Fold(mine).project;
            && p.id == mine[0].box && p.worktree == mine[0].worktree
            && p.projectName == mine[0].projectName && p.state == Halted
            && (p.ports.size == 0 || p.ports.size == 10)
    decreases |mine|
  {
    hide Count;
    var n := |mine| - 1;
    if n > 0 { FoldKeepsId(mine[..n]); }
    CountKeeps(if n == 0 then Enter(mine[0]) else Fold(mine[..n]), mine[n]);
  }

  // ---- what the two observers say of a box ----------------------------------

  /** loadAndReconcile: the status recorded for a box that the listing shows as
      `actual`, or does not show. */
  function ReconciledStatus(actual: Option<ManagedProject>, box: Box): Status
  {
    match actual
    case None => if box.status == Creating then Creating else Stopped
    case Some(project) =>
      var healthy := project.healthy && (Filter(box.mappings, PUBLISH) == [] || project.portBridgeRunning);
      if project.state == Running && healthy then (if box.runtimeError != "" then Error else Ready)
      else if project.state == Halted then Stopped
      else Error
  }

  /** statusFromCompose, and what Inspect makes of a runtime error. */
  function InspectedStatus(ready: bool, status: ProjectStatus, box: Box): Status
  {
    if ready then (if box.runtimeError != "" then Error else Ready)
    else if !status.present || status.state == Halted then Stopped
    else Error
  }

  function Listed(lines: seq<Line>, box: string): Option<ManagedProject>
  {
    if Mine(lines, box) == [] then None else Some(Summary(Mine(lines, box)))
  }

  ghost predicate Derived(status: ProjectStatus, cs: seq<ContainerStatus>)
  {
    && status.containers == cs && (status.present <==> cs != [])
    && status.state == (if cs == [] then Absent else if SomeRunning(cs) then Running else Halted)
  }

  ghost predicate OnePerService(cs: seq<ContainerStatus>)
  {
    forall i, j | 0 <= i < j < |cs| :: cs[i].service != cs[j].service
  }

  /** The Compose view of one listing line. */
  function AsCompose(l: Line): ContainerStatus
    requires l.Line?
  {
    ContainerStatus(l.service, l.running, l.healthy)
  }

  function AllAsCompose(mine: seq<Line>): (r: seq<ContainerStatus>)
    requires forall i | 0 <= i < |mine| :: mine[i].Line?
    ensures |r| == |mine|
  {
    if mine == [] then [] else AllAsCompose(mine[..|mine| - 1]) + [AsCompose(mine[|mine| - 1])]
  }

  /** An accumulator and the containers it was made of. */
  ghost predicate Says(a: Accumulator, cs: seq<ContainerStatus>)
  {
    && a.running == SomeRunning(cs)
    && a.docker == Up(LastOf(cs, Docker)) && a.webtop == Up(LastOf(cs, Webtop))
    && a.loopback == Up(LastOf(cs, Loopback)) && a.interconnect == Up(LastOf(cs, Interconnect))
    && a.project.portBridgeRunning == (LastOf(cs, Portbridge).Some? && LastOf(cs, Portbridge).value.running)
  }

  lemma SaysNext(a: Accumulator, cs: seq<ContainerStatus>, l: Line)
    requires Says(a, cs) && l.Line?
    ensures Says(Count(a, l), cs + [AsCompose(l)])
  {
    SomeRunningNext(cs, AsCompose(l));
    LastOfNext(cs, AsCompose(l));
    hide SomeRunning, LastOf;
  }

  lemma SaysFirst(l: Line)
    requires l.Line?
    ensures Says(Enter(l), [])
  {
  }

  /** What the accumulator of a box says of its lines. */
  lemma {:induction false} FoldSays(mine: seq<Line>)
    requires mine != [] && forall i | 0 <= i < |mine| :: mine[i].Line?
    ensures Says(Fold(mine), AllAsCompose(mine))
    decreases |mine|
  {
    hide Says, Count, Enter;
    var n := |mine| - 1;
    if n == 0 {
      SaysFirst(mine[0]);
      SaysNext(Enter(mine[0]), [], mine[0]);
      assert AllAsCompose(mine[..0]) == [];
    } else {
      FoldSays(mine[..n]);
      SaysNext(Fold(mine[..n]), AllAsCompose(mine[..n]), mine[n]);
    }
  }

  lemma SomeRunningNext(cs: seq<ContainerStatus>, c: ContainerStatus)
    ensures SomeRunning(cs + [c]) <==> SomeRunning(cs) || c.running
    ensures !SomeRunning([])
  {
    if c.running { assert (cs + [c])[|cs|].running; }
    if SomeRunning(cs) {
      var i :| 0 <= i < |cs| && cs[i].running;
      assert (cs + [c])[i].running;
    }
  }

  /** Two entries that describe one container; the health of a container that
      does not run is not compared. */
  predicate Alike(c: ContainerStatus, d: ContainerStatus)
  {
    c.service == d.service && c.running == d.running && (c.running ==> c.healthy == d.healthy)
  }

  ghost predicate HasAlike(c: ContainerStatus, cs: seq<ContainerStatus>)
  {
    exists i | 0 <= i < |cs| :: Alike(c, cs[i])
  }

  ghost predicate Covered(a: seq<ContainerStatus>, b: seq<ContainerStatus>)
  {
    forall i | 0 <= i < |a| :: HasAlike(a[i], b)
  }

  /** The same containers, seen in any order. */
  ghost predicate SameContainers(a: seq<ContainerStatus>, b: seq<ContainerStatus>)
  {
    Covered(a, b) && Covered(b, a)
  }

  /** The last container of a service is one of it, with none of it behind. */
  ghost predicate IsLast(cs: seq<ContainerStatus>, service: Service, i: nat)
  {
    i < |cs| && cs[i].service == service && forall j | i < j < |cs| :: cs[j].service != service
  }

  lemma {:induction false} LastOfIs(cs: seq<ContainerStatus>, service: Service)
    ensures LastOf(cs, service).Some? ==> exists i: nat :: IsLast(cs, service, i) && cs[i] == LastOf(cs, service).value
    ensures LastOf(cs, service).None? ==> forall i | 0 <= i < |cs| :: cs[i].service != service
  {
    if cs != [] {
      var n := |cs| - 1;
      LastOfIs(cs[..n], service);
      assert forall j | 0 <= j < n :: cs[j] == cs[..n][j];
      if cs[n].service == service {
        assert IsLast(cs, service, n);
      } else if LastOf(cs, service).Some? {
        var i: nat :| IsLast(cs[..n], service, i) && cs[..n][i] == LastOf(cs[..n], service).value;
        assert IsLast(cs, service, i) && cs[i] == cs[..n][i];
      }
    }
  }

  lemma LastOfIn(cs: seq<ContainerStatus>, service: Service)
    ensures LastOf(cs, service).Some? ==>
              exists i | 0 <= i < |cs| :: cs[i] == LastOf(cs, service).value && cs[i].service == service
    ensures LastOf(cs, service).None? ==> forall i | 0 <= i < |cs| :: cs[i].service != service
  {
    LastOfIs(cs, service);
    hide LastOf;
  }

  lemma LastOfUnique(cs: seq<ContainerStatus>, i: nat)
    requires OnePerService(cs) && i < |cs|
    ensures LastOf(cs, cs[i].service) == Some(cs[i])
  {
    LastOfIn(cs, cs[i].service);
    hide LastOf;
  }

  lemma AlikeService(a: seq<ContainerStatus>, b: seq<ContainerStatus>, service: Service)
    requires OnePerService(b) && SameContainers(a, b) && LastOf(a, service).Some?
    ensures LastOf(b, service).Some? && Alike(LastOf(a, service).value, LastOf(b, service).value)
  {
    LastOfIn(a, service);
    LastOfIn(b, service);
    hide LastOf;
    var i :| 0 <= i < |a| && a[i] == LastOf(a, service).value && a[i].service == service;
    assert HasAlike(a[i], b);
    var j :| 0 <= j < |b| && Alike(a[i], b[j]);
    assert LastOf(b, service).Some?;
    var k :| 0 <= k < |b| && b[k] == LastOf(b, service).value && b[k].service == service;
    assert k == j;
  }

  lemma SameLast(a: seq<ContainerStatus>, b: seq<ContainerStatus>, service: Service)
    requires OnePerService(a) && OnePerService(b) && SameContainers(a, b)
    ensures LastOf(a, service).Some? <==> LastOf(b, service).Some?
    ensures LastOf(a, service).Some? ==> Alike(LastOf(a, service).value, LastOf(b, service).value)
  {
    hide LastOf;
    if LastOf(a, service).Some? { AlikeService(a, b, service); }
    if LastOf(b, service).Some? { AlikeService(b, a, service); }
  }

  lemma RunningCovered(a: seq<ContainerStatus>, b: seq<ContainerStatus>)
    requires Covered(a, b)
    ensures SomeRunning(a) ==> SomeRunning(b)
    ensures a != [] ==> b != []
  {
    if SomeRunning(a) {
      var i :| 0 <= i < |a| && a[i].running;
      assert HasAlike(a[i], b);
      var j :| 0 <= j < |b| && Alike(a[i], b[j]);
      assert b[j].running;
    }
    if a != [] { assert HasAlike(a[0], b); }
  }

  /** The two observers give one status to a box, except for an absent box
      still Creating, and for a box without publications and without runtime
      error whose services are up beside a portbridge that does not run. */
  lemma ObserversAgree(lines: seq<Line>, box: Box, cs: seq<ContainerStatus>, status: ProjectStatus, ready: bool)
    requires OnePerService(cs) && OnePerService(AllAsCompose(Mine(lines, box.id)))
    requires SameContainers(AllAsCompose(Mine(lines, box.id)), cs)
    requires Derived(status, cs)
    requires ready <==> status.present && status.state == Running && ServicesUp(cs)
                        && BridgeReady(cs, Filter(box.mappings, PUBLISH) != [])
    ensures ReconciledStatus(Listed(lines, box.id), box) == InspectedStatus(ready, status, box) <==>
            && !(cs == [] && box.status == Creating)
            && !(Filter(box.mappings, PUBLISH) == [] && box.runtimeError == "" && ServicesUp(cs)
                 && LastOf(cs, Portbridge).Some? && !LastOf(cs, Portbridge).value.running)
  {
    hide Filter, LastOf, SomeRunning, OnePerService, SameContainers, Fold, Mine, AllAsCompose;
    var mine := Mine(lines, box.id);
    var seen := AllAsCompose(mine);
    SameContainersCover(seen, cs);
    RunningCovered(seen, cs);
    RunningCovered(cs, seen);
    if mine != [] {
      FoldSays(mine);
      FoldKeepsId(mine);
      SameLast(seen, cs, Docker);
      SameLast(seen, cs, Webtop);
      SameLast(seen, cs, Loopback);
      SameLast(seen, cs, Interconnect);
      SameLast(seen, cs, Portbridge);
      ServicesRun(cs);
    } else {
      assert cs == [];
      NothingUp();
    }
  }

  lemma SameContainersCover(a: seq<ContainerStatus>, b: seq<ContainerStatus>)
    requires SameContainers(a, b)
    ensures Covered(a, b) && Covered(b, a)
  {
  }

  lemma ServicesRun(cs: seq<ContainerStatus>)
    ensures ServicesUp(cs) ==> SomeRunning(cs)
  {
    LastOfIn(cs, Docker);
  }

  lemma NothingUp()
    ensures !ServicesUp([])
  {
  }

  // ---- the two disagreements occur ------------------------------------------

  /** A box whose containers are all gone while it is still being created. */
  lemma CreatingBoxDisagrees(box: Box)
    requires box.status == Creating
    ensures var status := ProjectStatus(false, Absent, []);
            && Derived(status, []) && Listed([], box.id).None?
            && ReconciledStatus(Listed([], box.id), box) == Creating && InspectedStatus(false, status, box) == Stopped
  {
  }

  /** The containers of a box that is up, beside a portbridge that runs or not. */
  function ServicesBeside(bridge: bool): seq<ContainerStatus>
  {
    [ContainerStatus(Docker, true, true), ContainerStatus(Webtop, true, true), ContainerStatus(Loopback, true, true),
     ContainerStatus(Interconnect, true, true), ContainerStatus(Portbridge, bridge, false)]
  }

  lemma ServicesBesideUp(bridge: bool)
    ensures ServicesUp(ServicesBeside(bridge)) && SomeRunning(ServicesBeside(bridge))
    ensures LastOf(ServicesBeside(bridge), Portbridge) == Some(ContainerStatus(Portbridge, bridge, false))
  {
    var cs := ServicesBeside(bridge);
    assert OnePerService(cs);
    LastOfUnique(cs, 0);
    LastOfUnique(cs, 1);
    LastOfUnique(cs, 2);
    LastOfUnique(cs, 3);
    LastOfUnique(cs, 4);
    assert cs[0].running;
  }

  /** A portbridge that was stopped beside a box without publications: the
      listing calls the box ready, the inspection calls it an error. */
  lemma StoppedBridgeDisagrees(box: Box, actual: ManagedProject)
    requires box.runtimeError == "" && box.mappings == []
    requires actual.state == Running && actual.healthy && !actual.portBridgeRunning
    ensures var cs := ServicesBeside(false);
            var status := ProjectStatus(true, Running, cs);
            var ready := ServicesUp(cs) && BridgeReady(cs, false);
            && Derived(status, cs) && Filter(box.mappings, PUBLISH) == []
            && ReconciledStatus(Some(actual), box) == Ready && InspectedStatus(ready, status, box) == Error
  {
    ServicesBesideUp(false);
    hide LastOf, SomeRunning;
  }
}
