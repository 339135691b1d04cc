/** The locking protocol between host commands and the sidecar of each box
    (internal/sandbox/manager.go, ports.go; internal/loopback/daemon.go,
    control.go), as interleaved steps of any number of processes. */
module LockProtocol {
  import opened PortForward

  type Pid = nat
  type Mappings = seq<Mapping>

  datatype Lock = Global | BoxLock(box: string) | TransactionLock(box: string) | SyncMutex(box: string)

  /** What a host command does. Listing stands for every command that takes
      the global lock alone, Query for those that only use the box lock. A
      restart keeps the files and the recorded mappings. */
  datatype Job = Change(candidate: Mappings) | Ensure | Restart | SyncNow | Query | Listing

  datatype Stage =
    | WantGlobal
    | WantBox
    | Locked(asked: bool)
    | Rendered(asked: bool)
    | WantTransaction
    | Clean
    | Written(before: Mappings, previous: Mappings, asked: bool)
    | Undoing(before: Mappings, previous: Mappings)
    | Restored(previous: Mappings, asked: bool)
    | Retry(previous: Mappings)
    | LeaveTransaction
    | LeaveBox
    | LeaveGlobal

  /** Background syncs and the handlers of the control commands sync,
      imports-apply and imports-preflight. */
  datatype Kind = Background | SyncRequest | ApplyRequest | PreflightRequest {
    /** Runs Daemon.Sync, which takes the transaction lock. */
    predicate Event() { Background? || SyncRequest? }
  }

  datatype SyncStep = NeedTransaction | NeedMutex | Loading | Loaded | ReleaseTransaction

  datatype Process =
    | Command(box: string, job: Job, stage: Stage, awaiting: Option<Pid>)
    | Sync(box: string, kind: Kind, step: SyncStep)

  /** One load of the config file, with the record of that moment. */
  datatype Load = Load(box: string, kind: Kind, config: Mappings, committed: Mappings, unrestored: bool, torn: bool)

  /** A process that finished leaves None, so process numbers stay fresh.
      `config` is the mapping set in the config file, `committed` the one in
      the state file; `saved` are all sets ever saved. `unrestored` boxes had
      a failed file restore, `torn` ones a rollback whose last save was lost. */
  datatype System = System(
    procs: seq<Option<Process>>,
    config: map<string, Mappings>,
    committed: map<string, Mappings>,
    saved: set<(string, Mappings)>,
    unrestored: set<string>,
    torn: set<string>,
    loads: seq<Load>)

  const INITIAL := System([], map[], map[], {}, {}, {}, [])

  function At(m: map<string, Mappings>, box: string): Mappings
  {
    if box in m then m[box] else []
  }

  /** A box without a record stands for the empty set. */
  predicate EverCommitted(s: System, box: string, ms: Mappings)
  {
    ms == [] || (box, ms) in s.saved
  }

  // ---- locks ----------------------------------------------------------------

  function Holds(p: Process): set<Lock>
  {
    match p
    case Command(box, _, stage, _) => (
      match stage
      case WantGlobal => {}
      case WantBox => {Global}
      case LeaveGlobal => {Global}
      case Locked(_) => {Global, BoxLock(box)}
      case Rendered(_) => {Global, BoxLock(box)}
      case WantTransaction => {Global, BoxLock(box)}
      case LeaveBox => {Global, BoxLock(box)}
      case _ => {Global, BoxLock(box), TransactionLock(box)})
    case Sync(box, kind, step) =>
      (if kind.Event() && step != NeedTransaction then {TransactionLock(box)} else {})
      + (if step == Loading || step == Loaded then {SyncMutex(box)} else {})
  }

  predicate Running(s: System, p: Pid) { p < |s.procs| && s.procs[p].Some? }

  predicate Free(s: System, l: Lock)
  {
    forall p | 0 <= p < |s.procs| :: s.procs[p].Some? ==> l !in Holds(s.procs[p].value)
  }

  // ---- steps ----------------------------------------------------------------

  /** Go: the next thing succeeds. Fail: it fails without effect. Tear: a save
      fails after its rename. Ask: a control request is sent. GiveUp: a client
      stops waiting while its handler goes on. */
  datatype Action = Arrive(process: Process) | Go(pid: Pid) | Fail(pid: Pid) | Tear(pid: Pid) | Ask(pid: Pid) | GiveUp(pid: Pid)

  predicate Fresh(p: Process)
  {
    match p
    case Command(_, _, stage, awaiting) => stage == WantGlobal && awaiting == None
    case Sync(_, kind, step) => kind == Background && step == NeedTransaction
  }

  predicate Enabled(s: System, a: Action)
  {
    match a
    case Arrive(p) => Fresh(p)
    case GiveUp(pid) => Running(s, pid) && s.procs[pid].value.Command? && s.procs[pid].value.awaiting.Some?
    case Go(pid) => Running(s, pid) && CanGo(s, s.procs[pid].value)
    case Fail(pid) => Running(s, pid) && CanFail(s.procs[pid].value)
    case Tear(pid) => Running(s, pid) && CanTear(s.procs[pid].value)
    case Ask(pid) => Running(s, pid) && s.procs[pid].value.Command? && CanAsk(s.procs[pid].value)
  }

  predicate CanGo(s: System, p: Process)
  {
    match p
    case Command(box, job, stage, awaiting) =>
      if awaiting.Some? then !Running(s, awaiting.value)
      else match stage {
        case WantGlobal => Free(s, Global)
        case WantBox => Free(s, BoxLock(box))
        case WantTransaction => Free(s, TransactionLock(box))
        case _ => true
      }
    case Sync(box, _, step) =>
      match step
      case NeedTransaction => Free(s, TransactionLock(box))
      case NeedMutex => Free(s, SyncMutex(box))
      case _ => true
  }

  predicate CanFail(p: Process)
  {
    match p
    case Command(_, _, stage, awaiting) =>
      awaiting.None? && !(stage in {LeaveTransaction, LeaveBox, LeaveGlobal})
    case Sync(_, _, step) => step == NeedTransaction || step == Loading
  }

  predicate CanTear(p: Process)
  {
    p.Command? && p.awaiting.None? && (p.stage.Written? || p.stage.Restored? || p.stage.Retry?)
  }

  /** Who is asked: a change preflights and applies, ensure applies after it
      rendered the files, a restart applies without the transaction lock, the
      sync command syncs. Each at most once a stage. */
  predicate CanAsk(p: Process)
    requires p.Command?
  {
    p.awaiting.None? &&
    match p.stage
    case Locked(asked) => !asked && (p.job.Change? || p.job.Restart? || p.job.SyncNow?)
    case Rendered(asked) => !asked
    case Written(_, _, asked) => !asked
    case Restored(_, asked) => !asked
    case _ => false
  }

  function Request(p: Process): Kind
    requires p.Command?
  {
    if p.stage.Locked? && p.job.SyncNow? then SyncRequest
    else if p.stage.Locked? && p.job.Change? then PreflightRequest
    else ApplyRequest
  }

  function Asked(stage: Stage): Stage
  {
    match stage
    case Locked(_) => Locked(true)
    case Rendered(_) => Rendered(true)
    case Written(before, previous, _) => Written(before, previous, true)
    case Restored(previous, _) => Restored(previous, true)
    case _ => stage
  }

  function Become(s: System, pid: Pid, p: Option<Process>): System
    requires pid < |s.procs|
  {
    s.(procs := s.procs[pid := p])
  }

  function Commit(s: System, box: string, ms: Mappings): System
  {
    s.(committed := s.committed[box := ms], saved := s.saved + {(box, ms)})
  }

  function Do(s: System, a: Action): System
    requires Enabled(s, a)
  {
    match a
    case Arrive(p) => s.(procs := s.procs + [Some(p)])
    case GiveUp(pid) => Become(s, pid, Some(s.procs[pid].value.(awaiting := None)))
    case Ask(pid) =>
      var p := s.procs[pid].value;
      var kind := Request(p);
      var handler := Sync(p.box, kind, if kind.Event() then NeedTransaction else NeedMutex);
      s.(procs := s.procs[pid := Some(p.(stage := Asked(p.stage), awaiting := Some(|s.procs|)))] + [Some(handler)])
    case Go(pid) =>
      var p := s.procs[pid].value;
      if p.Sync? then GoSync(s, pid, p)
      else if p.awaiting.Some? then Become(s, pid, Some(p.(awaiting := None)))
      else GoCommand(s, pid, p)
    case Fail(pid) => DoFail(s, pid, s.procs[pid].value)
    case Tear(pid) => DoTear(s, pid, s.procs[pid].value)
  }

  function Stay(s: System, pid: Pid, p: Process, stage: Stage): System
    requires pid < |s.procs| && p.Command?
  {
    Become(s, pid, Some(p.(stage := stage)))
  }

  function GoCommand(s: System, pid: Pid, p: Process): System
    requires pid < |s.procs| && p.Command?
  {
    match p.stage
    case WantGlobal => Stay(s, pid, p, if p.job.Listing? then LeaveGlobal else WantBox)
    case WantBox => Stay(s, pid, p, Locked(false))
    case Locked(_) =>
      if p.job.Change? then Stay(s, pid, p, WantTransaction)
      else if p.job.Ensure? then
        // Render writes the recorded mappings without the transaction lock.
        Stay(s, pid, p, Rendered(false)).(config := s.config[p.box := At(s.committed, p.box)],
                                          unrestored := s.unrestored - {p.box}, torn := s.torn - {p.box})
      else Stay(s, pid, p, LeaveBox)
    case Rendered(_) => Stay(Commit(s, p.box, At(s.committed, p.box)), pid, p, LeaveBox)
    case WantTransaction => Stay(s, pid, p, Clean)
    case Clean =>
      if p.job.Change? then
        Stay(s, pid, p, Written(At(s.config, p.box), At(s.committed, p.box), false))
          .(config := s.config[p.box := p.job.candidate])
      else Stay(s, pid, p, LeaveTransaction)
    case Written(_, _, _) =>
      if p.job.Change? then Stay(Commit(s, p.box, p.job.candidate), pid, p, LeaveTransaction)
      else Stay(s, pid, p, LeaveTransaction)
    case Undoing(before, previous) =>
      Stay(s, pid, p, Restored(previous, false)).(config := s.config[p.box := before])
    case Restored(previous, _) => Stay(Commit(s, p.box, previous), pid, p, LeaveTransaction)
    case Retry(previous) => Stay(Commit(s, p.box, previous), pid, p, LeaveTransaction)
    case LeaveTransaction => Stay(s, pid, p, LeaveBox)
    case LeaveBox => Stay(s, pid, p, LeaveGlobal)
    case LeaveGlobal => Become(s, pid, None)
  }

  function GoSync(s: System, pid: Pid, p: Process): System
    requires pid < |s.procs| && p.Sync?
  {
    match p.step
    case NeedTransaction => Become(s, pid, Some(p.(step := NeedMutex)))
    case NeedMutex => Become(s, pid, Some(p.(step := Loading)))
    case Loading =>
      var load := Load(p.box, p.kind, At(s.config, p.box), At(s.committed, p.box), p.box in s.unrestored, p.box in s.torn);
      Become(s, pid, Some(p.(step := Loaded)))
        .(loads := if p.kind.PreflightRequest? then s.loads else s.loads + [load])
    case Loaded => Become(s, pid, if p.kind.Event() then Some(p.(step := ReleaseTransaction)) else None)
    case ReleaseTransaction => Become(s, pid, None)
  }

  function DoFail(s: System, pid: Pid, p: Process): System
    requires pid < |s.procs| && CanFail(p)
  {
    match p
    case Sync(_, _, step) => Become(s, pid, if step == NeedTransaction then None else Some(p.(step := Loaded)))
    case Command(box, _, stage, _) =>
      match stage
      case WantGlobal => Become(s, pid, None)
      case WantBox => Stay(s, pid, p, LeaveGlobal)
      case Clean => Stay(s, pid, p, LeaveTransaction)
      case Written(before, previous, _) => Stay(s, pid, p, Undoing(before, previous))
      case Undoing(_, previous) =>
        Stay(s, pid, p, Restored(previous, false)).(unrestored := s.unrestored + {box})
      case Restored(previous, _) => Stay(s, pid, p, Retry(previous))
      case Retry(previous) =>
        Stay(s, pid, p, LeaveTransaction)
          .(torn := if At(s.committed, box) == previous then s.torn else s.torn + {box})
      case _ => Stay(s, pid, p, LeaveBox)
  }

  function DoTear(s: System, pid: Pid, p: Process): System
    requires pid < |s.procs| && CanTear(p)
  {
    match p.stage
    case Written(before, previous, _) =>
      if p.job.Change? then Stay(Commit(s, p.box, p.job.candidate), pid, p, Undoing(before, previous))
      else Stay(s, pid, p, Undoing(before, previous))
    case Restored(previous, _) => Stay(Commit(s, p.box, previous), pid, p, Retry(previous))
    case _ => Stay(Commit(s, p.box, p.stage.previous), pid, p, LeaveTransaction)
  }

  // ---- invariant ------------------------------------------------------------

  ghost predicate Exclusive(s: System)
  {
    forall p: Pid, q: Pid | Running(s, p) && Running(s, q) && p != q ::
      Holds(s.procs[p].value) !! Holds(s.procs[q].value)
  }

  /** Commands wait for handlers of their own box; one that holds the
      transaction lock only ever waits for imports-apply. */
  ghost predicate WaitsSoundly(s: System, p: Process)
  {
    p.Command? && p.awaiting.Some? ==>
      && p.awaiting.value < |s.procs|
      && (Running(s, p.awaiting.value) ==>
            var h := s.procs[p.awaiting.value].value;
            && h.Sync? && h.box == p.box
            && (TransactionLock(p.box) in Holds(p) ==> !h.kind.Event())
            && (h.kind == SyncRequest ==> Holds(p) == {Global, BoxLock(p.box)}))
  }

  predicate StageFits(p: Process)
  {
    && (p.Command? && TransactionLock(p.box) in Holds(p) ==> p.job.Change?)
    && (p.Command? && p.stage.WantTransaction? ==> p.job.Change?)
    && (p.Command? && p.stage.Rendered? ==> p.job.Ensure?)
    && (p.Command? && p.awaiting.Some? ==> p.stage.Locked? || p.stage.Rendered? || p.stage.Written? || p.stage.Restored?)
    && (p.Sync? && (p.step == NeedTransaction || p.step == ReleaseTransaction) ==> p.kind.Event())
  }

  /** A change of the box is between writing the candidate and leaving. */
  predicate InChange(p: Process, box: string)
  {
    p.Command? && p.box == box && (p.stage.Written? || p.stage.Undoing? || p.stage.Restored? || p.stage.Retry?)
  }

  /** Unless a change is in progress or a restore failed, the config file
      holds a set that was committed; it holds the one committed now unless a
      rollback also lost its last save. */
  ghost predicate Settled(s: System, box: string)
  {
    && (box in s.unrestored || EverCommitted(s, box, At(s.config, box)))
    && (box in s.unrestored || box in s.torn || At(s.config, box) == At(s.committed, box))
  }

  ghost predicate ChangeFits(s: System, p: Process)
  {
    p.Command? && (p.stage.Written? || p.stage.Undoing? || p.stage.Restored? || p.stage.Retry?) ==>
      var box := p.box;
      && EverCommitted(s, box, p.stage.previous)
      && (p.stage.Written? ==> p.job.Change? && At(s.config, box) == p.job.candidate)
      && (p.stage.Written? || p.stage.Undoing? ==>
            && (box in s.unrestored || EverCommitted(s, box, p.stage.before))
            && (box in s.unrestored || box in s.torn || p.stage.before == p.stage.previous))
      && (p.stage.Restored? || p.stage.Retry? ==>
            && (box in s.unrestored || EverCommitted(s, box, At(s.config, box)))
            && (box in s.unrestored || box in s.torn || At(s.config, box) == p.stage.previous))
  }

  ghost predicate LoadsFit(s: System)
  {
    forall i | 0 <= i < |s.loads| :: LoadFits(s, s.loads[i])
  }

  ghost predicate LoadFits(s: System, l: Load)
  {
    l.kind.Event() ==>
      && (l.unrestored || EverCommitted(s, l.box, l.config))
      && (l.unrestored || l.torn || l.config == l.committed)
  }

  ghost predicate Quiet(s: System, box: string)
  {
    forall p: Pid | Running(s, p) :: !InChange(s.procs[p].value, box)
  }

  ghost predicate Inv(s: System)
  {
    && Exclusive(s)
    && (forall p: Pid | Running(s, p) :: StageFits(s.procs[p].value) && WaitsSoundly(s, s.procs[p].value)
                                    && ChangeFits(s, s.procs[p].value))
    && (forall box | Quiet(s, box) :: Settled(s, box))
    && (forall box :: EverCommitted(s, box, At(s.committed, box)))
    && LoadsFit(s)
  }

  // ---- preservation ---------------------------------------------------------

  ghost predicate SameBox(s: System, t: System, box: string)
  {
    && At(s.config, box) == At(t.config, box) && At(s.committed, box) == At(t.committed, box)
    && (box in s.unrestored <==> box in t.unrestored) && (box in s.torn <==> box in t.torn)
  }

  /** Steps of one process keep the invariant: it may take free locks, and it
      touches the data of a box only while it holds the box lock. */
  lemma StepKeepsInv(s: System, t: System, pid: Pid, box: string)
    requires Inv(s) && Running(s, pid) && |t.procs| >= |s.procs|
    requires forall q: Pid | q < |s.procs| && q != pid :: t.procs[q] == s.procs[q]
    requires forall q: Pid | Running(t, q) && q >= |s.procs| ::
               StageFits(t.procs[q].value) && WaitsSoundly(t, t.procs[q].value) && Holds(t.procs[q].value) == {}
               && t.procs[q].value.Sync?
    requires forall b | b != box :: SameBox(s, t, b)
    requires s.saved <= t.saved
    requires var p := s.procs[pid].value;
             && p.box == box
             && (SameBox(s, t, box) || (p.Command? && BoxLock(box) in Holds(p)))
             && (Running(t, pid) ==>
                   var q := t.procs[pid].value;
                   && (p.Sync? ==> q.Sync? && q.box == p.box && q.kind == p.kind)
                   && StageFits(q) && WaitsSoundly(t, q) && ChangeFits(t, q)
                   && forall l | l in Holds(q) && l !in Holds(p) :: Free(s, l))
             && ((SameBox(s, t, box) && !InChange(p, box)) || Settled(t, box)
                 || (Running(t, pid) && InChange(t.procs[pid].value, box)))
    requires EverCommitted(t, box, At(t.committed, box))
    requires LoadsFit(t)
    ensures Inv(t)
  {
    var p := s.procs[pid].value;
    ExclusiveKept(s, t, pid);
    forall q: Pid | Running(t, q)
      ensures StageFits(t.procs[q].value) && WaitsSoundly(t, t.procs[q].value) && ChangeFits(t, t.procs[q].value)
    {
      if q < |s.procs| && q != pid {
        var other := s.procs[q].value;
        assert Running(s, q) && Holds(p) !! Holds(other);
        assert WaitsSoundly(s, other) && ChangeFits(s, other);
        if other.box == box {
          assert InChange(other, box) ==> BoxLock(box) in Holds(other);
        } else {
          assert SameBox(s, t, other.box);
        }
      }
    }
    forall b | Quiet(t, b) ensures Settled(t, b) {
      if !Settled(t, b) {
        if b != box || (SameBox(s, t, box) && !InChange(p, box)) {
          forall q: Pid | Running(s, q) ensures !InChange(s.procs[q].value, b) {
            if q != pid {
              assert Running(t, q);
            }
          }
          assert Quiet(s, b);
          assert Settled(s, b) && SameBox(s, t, b);
        }
      }
    }
    forall b ensures EverCommitted(t, b, At(t.committed, b)) {
      assert EverCommitted(s, b, At(s.committed, b));
      assert b == box || SameBox(s, t, b);
    }
  }

  lemma ExclusiveKept(s: System, t: System, pid: Pid)
    requires Exclusive(s) && Running(s, pid) && |t.procs| >= |s.procs|
    requires forall q: Pid | q < |s.procs| && q != pid :: t.procs[q] == s.procs[q]
    requires forall q: Pid | Running(t, q) && q >= |s.procs| :: Holds(t.procs[q].value) == {}
    requires Running(t, pid) ==>
               forall l | l in Holds(t.procs[pid].value) && l !in Holds(s.procs[pid].value) :: Free(s, l)
    ensures Exclusive(t)
  {
    forall a: Pid, b: Pid | Running(t, a) && Running(t, b) && a != b
      ensures Holds(t.procs[a].value) !! Holds(t.procs[b].value)
    {
      if a < |s.procs| && b < |s.procs| {
        var x, y := Holds(t.procs[a].value), Holds(t.procs[b].value);
        assert Running(s, a) && Running(s, b);
        assert Holds(s.procs[a].value) !! Holds(s.procs[b].value);
        forall l | l in x ensures l !in y {
          assert a == pid && l !in Holds(s.procs[a].value) ==> Free(s, l);
          assert b == pid && l in y && l !in Holds(s.procs[b].value) ==> Free(s, l);
        }
      }
    }
  }

  lemma InitialInv()
    ensures Inv(INITIAL)
  {
  }

  lemma ArriveKeepsInv(s: System, p: Process)
    requires Inv(s) && Fresh(p)
    ensures Inv(Do(s, Arrive(p)))
  {
    var t := Do(s, Arrive(p));
    forall q: Pid | Running(t, q) && q < |s.procs| ensures Running(s, q) && t.procs[q] == s.procs[q] {}
    forall q: Pid | Running(t, q)
      ensures StageFits(t.procs[q].value) && WaitsSoundly(t, t.procs[q].value) && ChangeFits(t, t.procs[q].value)
    {
      if q < |s.procs| {
        assert WaitsSoundly(s, s.procs[q].value) && ChangeFits(s, s.procs[q].value);
      }
    }
    forall b | Quiet(t, b) ensures Settled(t, b) {
      forall q: Pid | Running(s, q) ensures !InChange(s.procs[q].value, b) {
        assert Running(t, q);
      }
      assert Quiet(s, b);
      assert Settled(s, b);
    }
    forall b ensures EverCommitted(t, b, At(t.committed, b)) {
      assert EverCommitted(s, b, At(s.committed, b));
    }
    forall i | 0 <= i < |t.loads| ensures LoadFits(t, t.loads[i]) {
      assert LoadFits(s, s.loads[i]);
    }
  }

  lemma LoadsKept(s: System, t: System)
    requires LoadsFit(s) && s.saved <= t.saved && t.loads == s.loads
    ensures LoadsFit(t)
  {
    forall i | 0 <= i < |t.loads| ensures LoadFits(t, t.loads[i]) {
      assert LoadFits(s, s.loads[i]);
    }
  }

  /** Every step of the protocol keeps the invariant. */
  lemma StepInv(s: System, a: Action)
    requires Inv(s) && Enabled(s, a)
    ensures Inv(Do(s, a))
  {
    hide Inv, Enabled, Do;
    match a
    case Arrive(p) => ArriveIsFresh(s, p);
    case Ask(pid) => AskKeepsInv(s, pid);
    case GiveUp(pid) => GiveUpKeepsInv(s, pid);
    case Fail(pid) => FailKeepsInv(s, Do(s, a), pid);
    case Tear(pid) => TearKeepsInv(s, Do(s, a), pid);
    case Go(pid) =>
      OnlyRunningGo(s, pid);
      if s.procs[pid].value.Sync? {
        GoSyncKeepsInv(s, Do(s, a), pid);
      } else {
        GoCommandKeepsInv(s, Do(s, a), pid);
      }
  }

  lemma OnlyRunningGo(s: System, pid: Pid)
    requires Enabled(s, Go(pid))
    ensures Running(s, pid)
  {
  }

  lemma ArriveIsFresh(s: System, p: Process)
    requires Inv(s) && Enabled(s, Arrive(p))
    ensures Inv(Do(s, Arrive(p)))
  {
    hide Inv, Do;
    ArriveKeepsInv(s, p);
  }

  lemma AskKeepsInv(s: System, pid: Pid)
    requires Inv(s) && Enabled(s, Ask(pid))
    ensures Inv(Do(s, Ask(pid)))
  {
    LoadsKept(s, Do(s, Ask(pid)));
    StepKeepsInv(s, Do(s, Ask(pid)), pid, s.procs[pid].value.box);
  }

  lemma GiveUpKeepsInv(s: System, pid: Pid)
    requires Inv(s) && Enabled(s, GiveUp(pid))
    ensures Inv(Do(s, GiveUp(pid)))
  {
    LoadsKept(s, Do(s, GiveUp(pid)));
    StepKeepsInv(s, Do(s, GiveUp(pid)), pid, s.procs[pid].value.box);
  }

  /** Steps that change one process and no data. */
  lemma LocalStep(s: System, t: System, pid: Pid, q: Option<Process>)
    requires Inv(s) && Running(s, pid) && t == s.(procs := s.procs[pid := q])
    requires var p := s.procs[pid].value;
             && (InChange(p, p.box) ==> q.Some? && InChange(q.value, p.box))
             && (q.Some? ==>
                   && (p.Sync? ==> q.value.Sync? && q.value.kind == p.kind) && q.value.box == p.box
                   && StageFits(q.value) && WaitsSoundly(t, q.value) && ChangeFits(s, q.value)
                   && forall l | l in Holds(q.value) && l !in Holds(p) :: Free(s, l))
    ensures Inv(t)
  {
    LoadsKept(s, t);
    assert EverCommitted(s, s.procs[pid].value.box, At(s.committed, s.procs[pid].value.box));
    StepKeepsInv(s, t, pid, s.procs[pid].value.box);
  }

  /** Steps of a command that change data of its own box. */
  lemma DataStep(s: System, t: System, pid: Pid, q: Process)
    requires Inv(s) && Running(s, pid) && t.procs == s.procs[pid := Some(q)] && t.loads == s.loads
    requires s.saved <= t.saved
    requires var p := s.procs[pid].value;
             && p.Command? && q.Command? && q.box == p.box && q.awaiting.None?
             && BoxLock(p.box) in Holds(p) && Holds(q) <= Holds(p)
             && StageFits(q) && ChangeFits(t, q)
             && (Settled(t, p.box) || InChange(q, p.box))
             && (forall b | b != p.box :: SameBox(s, t, b))
             && EverCommitted(t, p.box, At(t.committed, p.box))
    ensures Inv(t)
  {
    LoadsKept(s, t);
    StepKeepsInv(s, t, pid, s.procs[pid].value.box);
  }

  lemma FailKeepsInv(s: System, t: System, pid: Pid)
    requires Inv(s) && Enabled(s, Fail(pid)) && t == Do(s, Fail(pid))
    ensures Inv(t)
  {
    hide Exclusive, Quiet, LoadsFit;
    var p := s.procs[pid].value;
    assert ChangeFits(s, p) && StageFits(p);
    assert EverCommitted(s, p.box, At(s.committed, p.box));
    if p.Command? && (p.stage.Undoing? || p.stage.Retry?) {
      DataStep(s, t, pid, t.procs[pid].value);
    } else {
      LocalStep(s, t, pid, t.procs[pid]);
    }
  }

  lemma TearKeepsInv(s: System, t: System, pid: Pid)
    requires Inv(s) && Enabled(s, Tear(pid)) && t == Do(s, Tear(pid))
    ensures Inv(t)
  {
    hide Exclusive, Quiet, LoadsFit;
    var p := s.procs[pid].value;
    assert ChangeFits(s, p) && StageFits(p);
    DataStep(s, t, pid, t.procs[pid].value);
  }

  predicate TouchesData(p: Process)
    requires p.Command?
  {
    || (p.stage.Locked? && p.job.Ensure?)
    || p.stage.Rendered? || p.stage.Clean? || p.stage.Written? || p.stage.Undoing? || p.stage.Restored? || p.stage.Retry?
  }

  lemma GoCommandKeepsInv(s: System, t: System, pid: Pid)
    requires Inv(s) && Enabled(s, Go(pid)) && t == Do(s, Go(pid)) && s.procs[pid].value.Command?
    ensures Inv(t)
  {
    hide Inv, Free, GoCommand;
    var p := s.procs[pid].value;
    if p.awaiting.Some? || !TouchesData(p) {
      LocalCommandKeepsInv(s, t, pid);
    } else if InChange(p, p.box) {
      ChangeStepKeepsInv(s, t, pid);
    } else {
      EnsureStepKeepsInv(s, t, pid);
    }
  }

  lemma LocalCommandKeepsInv(s: System, t: System, pid: Pid)
    requires Inv(s) && Enabled(s, Go(pid)) && t == Do(s, Go(pid)) && s.procs[pid].value.Command?
    requires s.procs[pid].value.awaiting.Some? || !TouchesData(s.procs[pid].value)
    ensures Inv(t)
  {
    hide Exclusive, Quiet, LoadsFit;
    var p := s.procs[pid].value;
    assert ChangeFits(s, p) && StageFits(p);
    LocalStep(s, t, pid, t.procs[pid]);
  }

  lemma EnsureStepKeepsInv(s: System, t: System, pid: Pid)
    requires Inv(s) && Enabled(s, Go(pid)) && t == Do(s, Go(pid)) && s.procs[pid].value.Command?
    requires s.procs[pid].value.awaiting.None? && TouchesData(s.procs[pid].value)
    requires !InChange(s.procs[pid].value, s.procs[pid].value.box)
    ensures Inv(t)
  {
    hide Exclusive, Quiet, LoadsFit;
    var p := s.procs[pid].value;
    assert ChangeFits(s, p) && StageFits(p);
    assert EverCommitted(s, p.box, At(s.committed, p.box));
    if !p.stage.Locked? { CommandSettled(s, pid); }
    DataStep(s, t, pid, t.procs[pid].value);
  }

  lemma ChangeStepKeepsInv(s: System, t: System, pid: Pid)
    requires Inv(s) && Enabled(s, Go(pid)) && t == Do(s, Go(pid)) && s.procs[pid].value.Command?
    requires s.procs[pid].value.awaiting.None? && InChange(s.procs[pid].value, s.procs[pid].value.box)
    ensures Inv(t)
  {
    hide Exclusive, Quiet, LoadsFit;
    var p := s.procs[pid].value;
    assert ChangeFits(s, p) && StageFits(p);
    assert t == GoCommand(s, pid, p);
    DataStep(s, t, pid, t.procs[pid].value);
  }

  /** A command that holds the box lock outside a change finds its box settled. */
  lemma CommandSettled(s: System, pid: Pid)
    requires Inv(s) && Running(s, pid) && s.procs[pid].value.Command?
    requires !InChange(s.procs[pid].value, s.procs[pid].value.box)
    requires BoxLock(s.procs[pid].value.box) in Holds(s.procs[pid].value)
    ensures Settled(s, s.procs[pid].value.box)
  {
    var p := s.procs[pid].value;
    forall q: Pid | Running(s, q) ensures !InChange(s.procs[q].value, p.box) {
      if q != pid {
        assert Holds(s.procs[q].value) !! Holds(p);
      }
    }
    assert Quiet(s, p.box);
  }

  /** The holder of the transaction lock of a box that is not in a change
      finds the box settled. */
  lemma OnlyChange(s: System, pid: Pid)
    requires Inv(s) && Running(s, pid) && !InChange(s.procs[pid].value, s.procs[pid].value.box)
    requires TransactionLock(s.procs[pid].value.box) in Holds(s.procs[pid].value)
    ensures Settled(s, s.procs[pid].value.box)
  {
    var p := s.procs[pid].value;
    forall q: Pid | Running(s, q) ensures !InChange(s.procs[q].value, p.box) {
      if q != pid {
        assert Holds(s.procs[q].value) !! Holds(p);
      }
    }
    assert Quiet(s, p.box);
  }

  lemma SyncLoadFits(s: System, t: System, pid: Pid)
    requires Inv(s) && Enabled(s, Go(pid)) && t == Do(s, Go(pid)) && s.procs[pid].value.Sync?
    ensures LoadsFit(t)
  {
    hide Exclusive, Quiet, Free, CanGo;
    var p := s.procs[pid].value;
    assert StageFits(p);
    forall i | 0 <= i < |t.loads| ensures LoadFits(t, t.loads[i]) {
      if i < |s.loads| {
        assert LoadFits(s, s.loads[i]);
      } else if p.kind.Event() {
        OnlyChange(s, pid);
      }
    }
  }

  lemma GoSyncKeepsInv(s: System, t: System, pid: Pid)
    requires Inv(s) && Enabled(s, Go(pid)) && t == Do(s, Go(pid)) && s.procs[pid].value.Sync?
    ensures Inv(t)
  {
    var p := s.procs[pid].value;
    assert StageFits(p);
    if p.step == Loading {
      LoadKeepsInv(s, t, pid);
    } else {
      hide LoadsFit, Exclusive, Quiet, EverCommitted;
      LocalStep(s, t, pid, t.procs[pid]);
    }
  }

  lemma LoadKeepsInv(s: System, t: System, pid: Pid)
    requires Inv(s) && Enabled(s, Go(pid)) && t == Do(s, Go(pid))
    requires s.procs[pid].value.Sync? && s.procs[pid].value.step == Loading
    ensures Inv(t)
  {
    SyncLoadFits(s, t, pid);
    hide LoadsFit, Exclusive, Quiet, EverCommitted, ChangeFits, WaitsSoundly;
    assert StageFits(s.procs[pid].value);
    StepKeepsInv(s, t, pid, s.procs[pid].value.box);
  }

  // ---- what happens under which lock ----------------------------------------

  /** The process of a step that goes on or fails. */
  ghost predicate Acts(s: System, a: Action, p: Process)
  {
    (a.Go? || a.Fail? || a.Tear?) && Running(s, a.pid) && s.procs[a.pid] == Some(p)
  }

  /** The files and the record of a box change only under the global lock and
      the lock of the box, and under the transaction lock too, except for an
      ensure that renders the recorded set. */
  lemma DataUnderLocks(s: System, a: Action, box: string) returns (p: Process)
    requires Inv(s) && Enabled(s, a) && !SameBox(s, Do(s, a), box)
    ensures Acts(s, a, p) && MayChange(s, Do(s, a), p, box)
  {
    hide Inv, Free;
    assert !a.Arrive? && !a.Ask? && !a.GiveUp?;
    p := s.procs[a.pid].value;
    RunningFits(s, a.pid);
    hide StageFits, Do;
    match a
    case Go(pid) => GoUnderLocks(s, pid, box);
    case Fail(pid) => FailUnderLocks(s, pid, box);
    case Tear(pid) => TearUnderLocks(s, pid, box);
    case _ =>
  }

  lemma RunningFits(s: System, pid: Pid)
    requires Inv(s) && Running(s, pid)
    ensures StageFits(s.procs[pid].value)
  {
  }

  /** A command may change the data of a box. */
  ghost predicate MayChange(s: System, t: System, p: Process, box: string)
  {
    && p.Command? && p.box == box && Global in Holds(p) && BoxLock(box) in Holds(p)
    && ((TransactionLock(box) in Holds(p) && p.job.Change?)
        || (p.job.Ensure? && At(t.config, box) == At(t.committed, box) == At(s.committed, box)))
  }

  lemma GoUnderLocks(s: System, pid: Pid, box: string)
    requires Enabled(s, Go(pid)) && StageFits(s.procs[pid].value) && !SameBox(s, Do(s, Go(pid)), box)
    ensures MayChange(s, Do(s, Go(pid)), s.procs[pid].value, box)
  {
    hide Free;
  }

  lemma FailUnderLocks(s: System, pid: Pid, box: string)
    requires Enabled(s, Fail(pid)) && StageFits(s.procs[pid].value) && !SameBox(s, Do(s, Fail(pid)), box)
    ensures MayChange(s, Do(s, Fail(pid)), s.procs[pid].value, box)
  {
  }

  lemma TearUnderLocks(s: System, pid: Pid, box: string)
    requires Enabled(s, Tear(pid)) && StageFits(s.procs[pid].value) && !SameBox(s, Do(s, Tear(pid)), box)
    ensures MayChange(s, Do(s, Tear(pid)), s.procs[pid].value, box)
  {
  }

  /** A config file is loaded under the mutex of the sidecar, and by the syncs
      that react to events, under the transaction lock as well; a preflight
      loads nothing. */
  lemma LoadsUnderLocks(s: System, a: Action) returns (p: Process)
    requires Inv(s) && Enabled(s, a) && Do(s, a).loads != s.loads
    ensures Acts(s, a, p) && a.Go? && p.Sync? && p.kind != PreflightRequest
    ensures SyncMutex(p.box) in Holds(p) && (TransactionLock(p.box) in Holds(p) <==> p.kind == Background || p.kind == SyncRequest)
    ensures |Do(s, a).loads| == |s.loads| + 1 && s.loads <= Do(s, a).loads
    ensures var load := Do(s, a).loads[|s.loads|];
            && load.box == p.box && load.kind == p.kind
            && load.config == At(s.config, p.box) && load.committed == At(s.committed, p.box)
  {
    hide Exclusive, Quiet, LoadsFit, Settled, EverCommitted, Free;
    assert !a.Arrive? && !a.Ask? && !a.GiveUp?;
    p := s.procs[a.pid].value;
    assert StageFits(p);
  }

  // ---- runs -----------------------------------------------------------------

  ghost predicate IsRun(s: System, actions: seq<Action>, t: System)
    decreases |actions|
  {
    if actions == [] then t == s
    else Enabled(s, actions[0]) && IsRun(Do(s, actions[0]), actions[1..], t)
  }

  lemma {:induction false} RunInv(s: System, actions: seq<Action>, t: System)
    requires Inv(s) && IsRun(s, actions, t)
    ensures Inv(t)
    decreases |actions|
  {
    if actions != [] {
      StepInv(s, actions[0]);
      RunInv(Do(s, actions[0]), actions[1..], t);
    }
  }

  predicate RestoreFails(s: System, a: Action)
  {
    a.Fail? && Running(s, a.pid) && s.procs[a.pid].value.Command? && s.procs[a.pid].value.stage.Undoing?
  }

  /** The last save of a rollback is lost. */
  predicate RollbackLost(s: System, a: Action)
  {
    a.Fail? && Running(s, a.pid) && s.procs[a.pid].value.Command? && s.procs[a.pid].value.stage.Retry?
  }

  ghost predicate Never(s: System, actions: seq<Action>, bad: (System, Action) -> bool)
    decreases |actions|
  {
    actions != [] ==> !bad(s, actions[0])
                      && (Enabled(s, actions[0]) ==> Never(Do(s, actions[0]), actions[1..], bad))
  }

  ghost predicate NoneUnrestored(s: System)
  {
    s.unrestored == {} && forall i | 0 <= i < |s.loads| :: !s.loads[i].unrestored
  }

  ghost predicate NoneTorn(s: System)
  {
    s.torn == {} && forall i | 0 <= i < |s.loads| :: !s.loads[i].torn
  }

  lemma {:induction false} RestoredRuns(s: System, actions: seq<Action>, t: System)
    requires IsRun(s, actions, t) && Never(s, actions, RestoreFails) && NoneUnrestored(s)
    ensures NoneUnrestored(t)
    decreases |actions|
  {
    if actions != [] {
      RestoredRuns(Do(s, actions[0]), actions[1..], t);
    }
  }

  lemma {:induction false} SavedRuns(s: System, actions: seq<Action>, t: System)
    requires IsRun(s, actions, t) && Never(s, actions, RollbackLost) && NoneTorn(s)
    ensures NoneTorn(t)
    decreases |actions|
  {
    if actions != [] {
      SavedRuns(Do(s, actions[0]), actions[1..], t);
    }
  }

  /** In every interleaving without a failed file restore, an event-mode sync
      loads only sets that were committed; a candidate is seen by
      imports-apply alone. */
  lemma EventSyncsLoadCommitted(actions: seq<Action>, t: System, i: nat)
    requires IsRun(INITIAL, actions, t) && Never(INITIAL, actions, RestoreFails) && i < |t.loads|
    ensures t.loads[i].kind.Event() ==> EverCommitted(t, t.loads[i].box, t.loads[i].config)
    ensures !EverCommitted(t, t.loads[i].box, t.loads[i].config) ==> !t.loads[i].kind.Event()
  {
    InitialInv();
    RunInv(INITIAL, actions, t);
    RestoredRuns(INITIAL, actions, t);
    assert LoadFits(t, t.loads[i]);
  }

  /** If moreover no rollback loses its last save, it loads the set that is
      committed at that moment. */
  lemma EventSyncsLoadTheRecord(actions: seq<Action>, t: System, i: nat)
    requires IsRun(INITIAL, actions, t) && i < |t.loads| && t.loads[i].kind.Event()
    requires Never(INITIAL, actions, RestoreFails) && Never(INITIAL, actions, RollbackLost)
    ensures t.loads[i].config == t.loads[i].committed
  {
    InitialInv();
    RunInv(INITIAL, actions, t);
    RestoredRuns(INITIAL, actions, t);
    SavedRuns(INITIAL, actions, t);
    assert LoadFits(t, t.loads[i]);
  }

  lemma {:induction false} RunExtends(s: System, actions: seq<Action>, t: System, a: Action)
    requires IsRun(s, actions, t) && Enabled(t, a)
    ensures IsRun(s, actions + [a], Do(t, a))
    decreases |actions|
  {
    if actions == [] {
      assert [a][0] == a && [a][1..] == [];
      assert IsRun(Do(t, a), [], Do(t, a));
    } else {
      assert (actions + [a])[1..] == actions[1..] + [a];
      RunExtends(Do(s, actions[0]), actions[1..], t, a);
    }
  }

  lemma {:induction false} NeverExtends(s: System, actions: seq<Action>, t: System, a: Action,
                                        bad: (System, Action) -> bool)
    requires IsRun(s, actions, t) && Never(s, actions, bad) && !bad(t, a)
    ensures Never(s, actions + [a], bad)
    decreases |actions|
  {
    if actions == [] {
      assert [a][0] == a && [a][1..] == [];
    } else {
      assert (actions + [a])[1..] == actions[1..] + [a];
      NeverExtends(Do(s, actions[0]), actions[1..], t, a, bad);
    }
  }

  /** A run without the bad steps leads here. */
  ghost predicate Reachable(t: System, bad: (System, Action) -> bool)
  {
    exists actions :: IsRun(INITIAL, actions, t) && Never(INITIAL, actions, bad)
  }

  lemma ReachStep(t: System, a: Action, u: System, bad: (System, Action) -> bool)
    requires Reachable(t, bad) && Enabled(t, a) && !bad(t, a)
    requires var v := Do(t, a);
             && u.procs == v.procs && u.config == v.config && u.committed == v.committed && u.saved == v.saved
             && u.unrestored == v.unrestored && u.torn == v.torn && u.loads == v.loads
    ensures Reachable(u, bad)
  {
    var actions :| IsRun(INITIAL, actions, t) && Never(INITIAL, actions, bad);
    RunExtends(INITIAL, actions, t, a);
    NeverExtends(INITIAL, actions, t, a, bad);
  }

  lemma InitiallyReachable(bad: (System, Action) -> bool)
    ensures Reachable(INITIAL, bad)
  {
    assert IsRun(INITIAL, [], INITIAL) && Never(INITIAL, [], bad);
  }

  /** A change at some stage, alone in the system. */
  function Underway(box: string, candidate: Mappings, stage: Stage): Process
  {
    Command(box, Change(candidate), stage, None)
  }

  lemma ReachWritten(box: string, candidate: Mappings, bad: (System, Action) -> bool) returns (s: System)
    requires forall t, a | bad(t, a) :: a.Fail?
    ensures Reachable(s, bad)
    ensures s == INITIAL.(procs := [Some(Underway(box, candidate, Written([], [], false)))], config := map[box := candidate])
  {
    hide Reachable;
    InitiallyReachable(bad);
    s := INITIAL.(procs := [Some(Underway(box, candidate, WantGlobal))]);
    ReachStep(INITIAL, Arrive(Underway(box, candidate, WantGlobal)), s, bad);
    var next := INITIAL.(procs := [Some(Underway(box, candidate, WantBox))]);
    ReachStep(s, Go(0), next, bad);
    s := INITIAL.(procs := [Some(Underway(box, candidate, Locked(false)))]);
    ReachStep(next, Go(0), s, bad);
    next := INITIAL.(procs := [Some(Underway(box, candidate, WantTransaction))]);
    ReachStep(s, Go(0), next, bad);
    s := INITIAL.(procs := [Some(Underway(box, candidate, Clean))]);
    ReachStep(next, Go(0), s, bad);
    next := INITIAL.(procs := [Some(Underway(box, candidate, Written([], [], false)))], config := map[box := candidate]);
    ReachStep(s, Go(0), next, bad);
    s := next;
  }

  // ---- undisturbed runs -----------------------------------------------------

  predicate Disturbs(s: System, a: Action) { a.Fail? || a.Tear? || a.GiveUp? }

  /** One command and handlers that have finished. */
  ghost predicate Alone(s: System, p: Process)
  {
    && Reachable(s, Disturbs) && p.Command? && p.awaiting.None?
    && |s.procs| > 0 && s.procs[0] == Some(p) && forall i | 1 <= i < |s.procs| :: s.procs[i].None?
  }

  /** The next thing of a command that is alone. */
  lemma GoAlone(s: System, p: Process) returns (t: System)
    requires Alone(s, p)
    ensures t == Do(s, Go(0)) && Reachable(t, Disturbs)
  {
    assert Enabled(s, Go(0));
    t := Do(s, Go(0));
    ReachStep(s, Go(0), t, Disturbs);
  }

  /** A command up to the lock of its box. */
  lemma ReachLocked(box: string, job: Job) returns (s: System)
    requires !job.Listing?
    ensures Alone(s, Command(box, job, Locked(false), None))
    ensures s == INITIAL.(procs := [Some(Command(box, job, Locked(false), None))])
  {
    InitiallyReachable(Disturbs);
    var arrived := INITIAL.(procs := [Some(Command(box, job, WantGlobal, None))]);
    ReachStep(INITIAL, Arrive(Command(box, job, WantGlobal, None)), arrived, Disturbs);
    s := GoAlone(arrived, Command(box, job, WantGlobal, None));
    s := GoAlone(s, Command(box, job, WantBox, None));
  }

  /** The load of a handler; a preflight makes none. */
  function LoadsOf(s: System, box: string, kind: Kind): seq<Load>
  {
    if kind.PreflightRequest? then s.loads
    else s.loads + [Load(box, kind, At(s.config, box), At(s.committed, box), box in s.unrestored, box in s.torn)]
  }

  lemma StepHandler(s: System, c: Process, pid: Pid, h: Process, bad: (System, Action) -> bool) returns (t: System)
    requires Reachable(s, bad) && pid == |s.procs| - 1 > 0 && s.procs[0] == Some(c) && s.procs[pid] == Some(h) && h.Sync?
    requires forall i | 1 <= i < pid :: s.procs[i].None?
    requires h.step == NeedTransaction ==> TransactionLock(h.box) !in Holds(c)
    requires SyncMutex(h.box) !in Holds(c)
    requires forall q, a | bad(q, a) :: !a.Go?
    ensures t == Do(s, Go(pid)) && Reachable(t, bad)
  {
    assert Enabled(s, Go(pid));
    t := Do(s, Go(pid));
    ReachStep(s, Go(pid), t, bad);
  }

  /** A request from its sending to its answer. */
  lemma HandlerRuns(s: System, c: Process) returns (t: System)
    requires Alone(s, c) && CanAsk(c) && (Request(c).Event() ==> TransactionLock(c.box) !in Holds(c))
    ensures Alone(t, c.(stage := Asked(c.stage)))
    ensures t == s.(procs := s.procs[0 := Some(c.(stage := Asked(c.stage)))] + [None], loads := LoadsOf(s, c.box, Request(c)))
  {
    hide Reachable;
    var kind, pid := Request(c), |s.procs|;
    var asking := c.(stage := Asked(c.stage), awaiting := Some(pid));
    var handler := Sync(c.box, kind, if kind.Event() then NeedTransaction else NeedMutex);
    var before := s.procs[0 := Some(asking)];
    t := Do(s, Ask(0));
    ReachStep(s, Ask(0), t, Disturbs);
    assert t == s.(procs := before + [Some(handler)]);
    if kind.Event() {
      t := StepHandler(t, asking, pid, handler, Disturbs);
      assert t.procs == before + [Some(handler.(step := NeedMutex))];
    }
    t := StepHandler(t, asking, pid, handler.(step := NeedMutex), Disturbs);
    assert t.procs == before + [Some(handler.(step := Loading))];
    t := StepHandler(t, asking, pid, handler.(step := Loading), Disturbs);
    assert t.procs == before + [Some(handler.(step := Loaded))];
    t := StepHandler(t, asking, pid, handler.(step := Loaded), Disturbs);
    if kind.Event() {
      assert t.procs == before + [Some(handler.(step := ReleaseTransaction))];
      t := StepHandler(t, asking, pid, handler.(step := ReleaseTransaction), Disturbs);
    }
    assert t.procs == before + [None];
    var u := Do(t, Go(0));
    assert Enabled(t, Go(0));
    ReachStep(t, Go(0), u, Disturbs);
    t := u;
  }

  /** From the lock of the box to the end. */
  lemma LeavesAlone(s: System, p: Process) returns (t: System)
    requires Alone(s, p) && p.stage == LeaveBox
    ensures Reachable(t, Disturbs) && t == s.(procs := s.procs[0 := None])
  {
    hide Reachable;
    t := GoAlone(s, p);
    t := GoAlone(t, p.(stage := LeaveGlobal));
    assert s.procs[0 := Some(p.(stage := LeaveGlobal))][0 := None] == s.procs[0 := None];
  }

  /** A change that is alone, up to its candidate in the config file. */
  lemma ReachCandidate(box: string, candidate: Mappings) returns (t: System)
    ensures Alone(t, Underway(box, candidate, Written([], [], false)))
    ensures t == INITIAL.(procs := [Some(Underway(box, candidate, Written([], [], false))), None], config := map[box := candidate])
  {
    hide Reachable;
    var c := Underway(box, candidate, Locked(false));
    t := ReachLocked(box, Change(candidate));
    t := HandlerRuns(t, c);
    t := GoAlone(t, c.(stage := Locked(true)));
    t := GoAlone(t, c.(stage := WantTransaction));
    t := GoAlone(t, c.(stage := Clean));
  }

  /** A change that nothing disturbs preflights, writes, applies and commits its
      candidate: files and record hold it, and the only load is that of its own
      imports-apply, before the commit. */
  lemma ChangeCommits(box: string, candidate: Mappings) returns (t: System)
    ensures Reachable(t, Disturbs) && forall p: Pid :: !Running(t, p)
    ensures t.config == map[box := candidate] && t.committed == map[box := candidate] && t.saved == {(box, candidate)}
    ensures t.loads == [Load(box, ApplyRequest, candidate, [], false, false)]
  {
    hide Reachable;
    var c := Underway(box, candidate, Written([], [], false));
    t := ReachCandidate(box, candidate);
    t := HandlerRuns(t, c);
    t := GoAlone(t, c.(stage := Written([], [], true)));
    t := GoAlone(t, c.(stage := LeaveTransaction));
    t := LeavesAlone(t, c.(stage := LeaveBox));
  }

  /** An ensure renders the recorded set, applies it and saves it. */
  lemma EnsureRenders(box: string) returns (t: System)
    ensures Reachable(t, Disturbs) && forall p: Pid :: !Running(t, p)
    ensures t.config == map[box := []] && t.committed == map[box := []] && t.saved == {(box, [])}
    ensures t.loads == [Load(box, ApplyRequest, [], [], false, false)]
  {
    hide Reachable;
    var c := Command(box, Ensure, Locked(false), None);
    t := ReachLocked(box, Ensure);
    t := GoAlone(t, c);
    t := HandlerRuns(t, c.(stage := Rendered(false)));
    t := GoAlone(t, c.(stage := Rendered(true)));
    t := LeavesAlone(t, c.(stage := LeaveBox));
  }

  /** A restart applies what the files hold, the sync command loads it under the
      transaction lock, and a query does neither; none of them changes files
      or record. */
  lemma ReadersRun(box: string, job: Job) returns (t: System)
    requires job.Restart? || job.SyncNow? || job.Query?
    ensures Reachable(t, Disturbs) && forall p: Pid :: !Running(t, p)
    ensures t.config == map[] && t.committed == map[] && t.saved == {}
    ensures t.loads == if job.Query? then [] else [Load(box, if job.Restart? then ApplyRequest else SyncRequest, [], [], false, false)]
  {
    hide Reachable;
    var c := Command(box, job, Locked(false), None);
    t := ReachLocked(box, job);
    if !job.Query? {
      t := HandlerRuns(t, c);
      t := GoAlone(t, c.(stage := Locked(true)));
    } else {
      t := GoAlone(t, c);
    }
    t := LeavesAlone(t, c.(stage := LeaveBox));
  }

  /** The restore fails, and the rollback is saved. */
  lemma ReachUnrestored(box: string, candidate: Mappings) returns (s: System)
    ensures Reachable(s, RollbackLost)
    ensures s == INITIAL.(procs := [Some(Underway(box, candidate, LeaveBox))], config := map[box := candidate],
                          committed := map[box := []], saved := {(box, [])}, unrestored := {box})
  {
    hide Reachable;
    s := ReachWritten(box, candidate, RollbackLost);
    var t := s.(procs := [Some(Underway(box, candidate, Undoing([], [])))]);
    ReachStep(s, Fail(0), t, RollbackLost);
    s := t.(procs := [Some(Underway(box, candidate, Restored([], false)))], unrestored := {box});
    ReachStep(t, Fail(0), s, RollbackLost);
    t := s.(procs := [Some(Underway(box, candidate, LeaveTransaction))], committed := map[box := []], saved := {(box, [])});
    ReachStep(s, Go(0), t, RollbackLost);
    s := t.(procs := [Some(Underway(box, candidate, LeaveBox))]);
    ReachStep(t, Go(0), s, RollbackLost);
  }

  /** The candidate is saved by a save that reports a failure, the files are
      restored, and both saves of the rollback are lost. */
  lemma ReachTorn(box: string, candidate: Mappings) returns (s: System)
    requires candidate != []
    ensures Reachable(s, RestoreFails)
    ensures s == INITIAL.(procs := [Some(Underway(box, candidate, LeaveBox))], config := map[box := []],
                          committed := map[box := candidate], saved := {(box, candidate)}, torn := {box})
  {
    hide Reachable;
    s := ReachWritten(box, candidate, RestoreFails);
    var t := s.(procs := [Some(Underway(box, candidate, Undoing([], [])))],
                committed := map[box := candidate], saved := {(box, candidate)});
    ReachStep(s, Tear(0), t, RestoreFails);
    s := t.(procs := [Some(Underway(box, candidate, Restored([], false)))], config := map[box := []]);
    ReachStep(t, Go(0), s, RestoreFails);
    t := s.(procs := [Some(Underway(box, candidate, Retry([])))]);
    ReachStep(s, Fail(0), t, RestoreFails);
    s := t.(procs := [Some(Underway(box, candidate, LeaveTransaction))], torn := {box});
    ReachStep(t, Fail(0), s, RestoreFails);
    t := s.(procs := [Some(Underway(box, candidate, LeaveBox))]);
    ReachStep(s, Go(0), t, RestoreFails);
    s := t;
  }

  /** The next background sync of a box that a change has just left. */
  lemma ReachLoad(left: System, box: string, bad: (System, Action) -> bool) returns (t: System)
    requires forall s, a | bad(s, a) :: a.Fail?
    requires Reachable(left, bad) && left.loads == []
    requires |left.procs| == 1 && left.procs[0].Some? && left.procs[0].value.Command? && left.procs[0].value.stage == LeaveBox
    ensures Reachable(t, bad)
    ensures t == left.(procs := [left.procs[0], Some(Sync(box, Background, Loaded))],
                       loads := [Load(box, Background, At(left.config, box), At(left.committed, box),
                                      box in left.unrestored, box in left.torn)])
  {
    var first := left.procs[0];
    var s := left.(procs := [first, Some(Sync(box, Background, NeedTransaction))]);
    ReachStep(left, Arrive(Sync(box, Background, NeedTransaction)), s, bad);
    t := s.(procs := [first, Some(Sync(box, Background, NeedMutex))]);
    ReachStep(s, Go(1), t, bad);
    s := t.(procs := [first, Some(Sync(box, Background, Loading))]);
    ReachStep(t, Go(1), s, bad);
    t := s.(procs := [first, Some(Sync(box, Background, Loaded))],
            loads := [Load(box, Background, At(left.config, box), At(left.committed, box),
                           box in left.unrestored, box in left.torn)]);
    ReachStep(s, Go(1), t, bad);
  }

  /** The condition on restores is needed, even when every rollback is saved:
      after a failed restore, the next background sync loads a candidate that
      was never committed. */
  lemma FailedRestoreLeaksCandidate(box: string, candidate: Mappings) returns (t: System)
    requires candidate != []
    ensures Reachable(t, RollbackLost) && |t.loads| == 1 && t.loads[0].kind.Event()
    ensures t.loads[0].config == candidate && !EverCommitted(t, box, candidate)
  {
    var left := ReachUnrestored(box, candidate);
    t := ReachLoad(left, box, RollbackLost);
  }

  /** The condition on the saves of rollbacks is needed, even when every
      restore succeeds: after a lost one, the next background sync loads a set
      that is not the recorded one. */
  lemma LostRollbackSplitsTheRecord(box: string, candidate: Mappings) returns (t: System)
    requires candidate != []
    ensures Reachable(t, RestoreFails) && |t.loads| == 1 && t.loads[0].kind.Event()
    ensures t.loads[0].config == [] && t.loads[0].committed == candidate
  {
    var left := ReachTorn(box, candidate);
    t := ReachLoad(left, box, RestoreFails);
  }

  // ---- no deadlock ----------------------------------------------------------

  function Holder(s: System, l: Lock): (p: Pid)
    requires !Free(s, l)
    ensures Running(s, p) && l in Holds(s.procs[p].value)
  {
    FirstHolder(s, l, 0)
  }

  function FirstHolder(s: System, l: Lock, from: Pid): (p: Pid)
    requires exists q: Pid :: from <= q && Running(s, q) && l in Holds(s.procs[q].value)
    ensures Running(s, p) && l in Holds(s.procs[p].value)
    decreases |s.procs| - from
  {
    if Running(s, from) && l in Holds(s.procs[from].value) then from else FirstHolder(s, l, from + 1)
  }

  /** A sync that needs no transaction lock can step, or the holder of the
      mutex can. */
  lemma SyncProgress(s: System, p: Pid) returns (q: Pid)
    requires Running(s, p) && s.procs[p].value.Sync? && s.procs[p].value.step != NeedTransaction
    ensures Enabled(s, Go(q))
  {
    q := p;
    var sync := s.procs[p].value;
    if sync.step == NeedMutex && !Free(s, SyncMutex(sync.box)) {
      q := Holder(s, SyncMutex(sync.box));
    }
  }

  /** So can whoever blocks a holder of the transaction lock. */
  lemma TransactionHolderProgress(s: System, p: Pid, box: string) returns (q: Pid)
    requires Inv(s) && Running(s, p) && TransactionLock(box) in Holds(s.procs[p].value)
    ensures Enabled(s, Go(q))
  {
    var holder := s.procs[p].value;
    if holder.Sync? {
      q := SyncProgress(s, p);
    } else {
      assert WaitsSoundly(s, holder) && StageFits(holder);
      q := p;
      if holder.awaiting.Some? && Running(s, holder.awaiting.value) {
        assert StageFits(s.procs[holder.awaiting.value].value);
        q := SyncProgress(s, holder.awaiting.value);
      }
    }
  }

  lemma AnySyncProgress(s: System, p: Pid) returns (q: Pid)
    requires Inv(s) && Running(s, p) && s.procs[p].value.Sync?
    ensures Enabled(s, Go(q))
  {
    var sync := s.procs[p].value;
    if sync.step != NeedTransaction {
      q := SyncProgress(s, p);
    } else if Free(s, TransactionLock(sync.box)) {
      q := p;
    } else {
      q := TransactionHolderProgress(s, Holder(s, TransactionLock(sync.box)), sync.box);
    }
  }

  /** A command that has the global lock is blocked only by something that
      can itself go on. */
  lemma GlobalHolderProgress(s: System, p: Pid) returns (q: Pid)
    requires Inv(s) && Running(s, p) && Global in Holds(s.procs[p].value)
    ensures Enabled(s, Go(q))
  {
    var command := s.procs[p].value;
    assert WaitsSoundly(s, command);
    q := p;
    if command.awaiting.Some? {
      if Running(s, command.awaiting.value) {
        q := AnySyncProgress(s, command.awaiting.value);
      }
    } else if command.stage == WantBox {
      // Whoever holds a box lock holds the global lock, and that is p.
      forall other: Pid | Running(s, other) && other != p
        ensures BoxLock(command.box) !in Holds(s.procs[other].value)
      {
        assert Holds(s.procs[other].value) !! Holds(command);
      }
    } else if command.stage == WantTransaction && !Free(s, TransactionLock(command.box)) {
      q := TransactionHolderProgress(s, Holder(s, TransactionLock(command.box)), command.box);
    }
  }

  /** No deadlock: while some process is unfinished, some process can go on,
      without timeouts and without failures. */
  lemma NoDeadlock(s: System, p: Pid) returns (q: Pid)
    requires Inv(s) && Running(s, p)
    ensures Enabled(s, Go(q))
  {
    var process := s.procs[p].value;
    if process.Sync? {
      q := AnySyncProgress(s, p);
    } else if Global in Holds(process) {
      q := GlobalHolderProgress(s, p);
    } else if Free(s, Global) {
      assert StageFits(process);
      q := p;
    } else {
      q := GlobalHolderProgress(s, Holder(s, Global));
    }
  }

  /** The order in which locks are taken. */
  function Rank(l: Lock): nat
  {
    match l
    case Global => 0
    case BoxLock(_) => 1
    case TransactionLock(_) => 2
    case SyncMutex(_) => 3
  }

  /** Whether a process that goes from p to q takes locks in order. */
  ghost predicate InOrder(p: Process, q: Process)
  {
    forall l, m | l in Holds(q) && l !in Holds(p) && m in Holds(p) :: Rank(m) < Rank(l)
  }

  /** A process only ever takes a lock that ranks above all locks it holds. */
  lemma AcquiresInOrder(s: System, a: Action, pid: Pid)
    requires Inv(s) && Enabled(s, a) && Running(s, pid) && Running(Do(s, a), pid)
    ensures InOrder(s.procs[pid].value, Do(s, a).procs[pid].value)
  {
    hide Inv, At, EverCommitted, InOrder, Free;
    var p, q := s.procs[pid].value, Do(s, a).procs[pid].value;
    if a.Go? && a.pid == pid {
      GoInOrder(s, pid, p, q);
    } else if (a.Fail? || a.Tear?) && a.pid == pid {
      FailureInOrder(s, a, p, q);
    } else {
      OthersStay(s, a, pid);
      SameInOrder(p, q);
    }
  }

  lemma OthersStay(s: System, a: Action, pid: Pid)
    requires Enabled(s, a) && Running(s, pid) && Running(Do(s, a), pid)
    requires a.Arrive? || a.Ask? || a.GiveUp? || a.pid != pid
    ensures Holds(Do(s, a).procs[pid].value) == Holds(s.procs[pid].value)
  {
    hide Free, GoCommand, GoSync, DoFail, DoTear, Weight, CanGo, CanFail, CanTear;
    if (a.Go? || a.Fail? || a.Tear?) && a.pid != pid {
      ActionLighter(s, a);
    }
  }

  lemma GoInOrder(s: System, pid: Pid, p: Process, q: Process)
    requires Enabled(s, Go(pid)) && s.procs[pid] == Some(p)
    requires pid < |Do(s, Go(pid)).procs| && Do(s, Go(pid)).procs[pid] == Some(q)
    ensures InOrder(p, q)
  {
    hide At, EverCommitted, InOrder, Free;
    if p.Command? && p.awaiting.Some? { SameInOrder(p, q); }
    else if p.Sync? { SyncInOrder(p, q); }
    else { StageInOrder(p, q); }
  }

  lemma FailureInOrder(s: System, a: Action, p: Process, q: Process)
    requires Enabled(s, a) && (a.Fail? || a.Tear?) && s.procs[a.pid] == Some(p)
    requires a.pid < |Do(s, a).procs| && Do(s, a).procs[a.pid] == Some(q)
    ensures InOrder(p, q)
  {
    hide At, EverCommitted, InOrder, Free;
    if p.Sync? { SyncInOrder(p, q); } else { StageInOrder(p, q); }
  }

  lemma SameInOrder(p: Process, q: Process)
    requires Holds(q) <= Holds(p)
    ensures InOrder(p, q)
  {
  }

  lemma SyncInOrder(p: Process, q: Process)
    requires p.Sync? && q.Sync? && q.box == p.box && q.kind == p.kind
    requires match p.step
             case NeedTransaction => q.step == NeedMutex
             case NeedMutex => q.step == Loading
             case Loading => q.step == Loaded
             case _ => q.step == ReleaseTransaction
    ensures InOrder(p, q)
  {
  }

  lemma StageInOrder(p: Process, q: Process)
    requires p.Command? && q.Command? && q.box == p.box
    requires match p.stage
             case WantGlobal => q.stage == LeaveGlobal || q.stage == WantBox
             case WantBox => q.stage == LeaveGlobal || q.stage.Locked?
             case Locked(_) => q.stage == LeaveBox || q.stage == WantTransaction || q.stage.Rendered?
             case Rendered(_) => q.stage == LeaveBox
             case WantTransaction => q.stage == Clean || q.stage == LeaveBox
             case LeaveTransaction => q.stage == LeaveBox
             case LeaveBox => q.stage == LeaveGlobal
             case LeaveGlobal => q.stage == LeaveGlobal
             case _ => q.stage == LeaveTransaction || q.stage.Written? || q.stage.Undoing? || q.stage.Restored? || q.stage.Retry?
    ensures InOrder(p, q)
  {
  }

  // ---- every request ends ---------------------------------------------------

  /** Bounds the steps a process and the handlers it may still ask can take. */
  function Weight(p: Option<Process>): nat
  {
    match p
    case None => 0
    case Some(Sync(_, _, step)) => (
      match step
      case NeedTransaction => 5
      case NeedMutex => 4
      case Loading => 3
      case Loaded => 2
      case ReleaseTransaction => 1)
    case Some(Command(_, _, stage, awaiting)) => StageWeight(stage) + if awaiting.Some? then 1 else 0
  }

  function StageWeight(stage: Stage): nat
  {
    match stage
    case WantGlobal => 33
    case WantBox => 32
    case Locked(asked) => if asked then 24 else 31
    case WantTransaction => 23
    case Clean => 22
    case Written(_, _, asked) => if asked then 14 else 21
    case Undoing(_, _) => 13
    case Restored(_, asked) => if asked then 5 else 12
    case Rendered(asked) => if asked then 3 else 10
    case Retry(_) => 4
    case LeaveTransaction => 3
    case LeaveBox => 2
    case LeaveGlobal => 1
  }

  function Total(procs: seq<Option<Process>>): nat
  {
    if procs == [] then 0 else Total(procs[..|procs| - 1]) + Weight(procs[|procs| - 1])
  }

  lemma {:induction false} TotalUpdate(procs: seq<Option<Process>>, pid: Pid, p: Option<Process>)
    requires pid < |procs|
    ensures Total(procs[pid := p]) == Total(procs) - Weight(procs[pid]) + Weight(p)
  {
    var last := |procs| - 1;
    if pid == last {
      assert procs[pid := p][..last] == procs[..last];
    } else {
      assert procs[pid := p][..last] == procs[..last][pid := p];
      TotalUpdate(procs[..last], pid, p);
    }
  }

  ghost predicate Lighter(s: System, t: System, pid: Pid)
  {
    pid < |s.procs| && |t.procs| == |s.procs| && t.procs == s.procs[pid := t.procs[pid]]
    && Weight(t.procs[pid]) < Weight(s.procs[pid])
  }

  lemma GoLighter(s: System, pid: Pid)
    requires Enabled(s, Go(pid))
    ensures Lighter(s, Do(s, Go(pid)), pid)
  {
    hide Free;
    var p := s.procs[pid].value;
    if p.Command? && p.awaiting.None? {
      assert Do(s, Go(pid)) == GoCommand(s, pid, p);
      CommandLighter(s, pid, p);
    }
  }

  lemma CommandLighter(s: System, pid: Pid, p: Process)
    requires pid < |s.procs| && s.procs[pid] == Some(p) && p.Command? && p.awaiting.None?
    ensures Lighter(s, GoCommand(s, pid, p), pid)
  {
  }

  lemma FailLighter(s: System, pid: Pid)
    requires Enabled(s, Fail(pid))
    ensures Lighter(s, Do(s, Fail(pid)), pid)
  {
    assert Do(s, Fail(pid)) == DoFail(s, pid, s.procs[pid].value);
  }

  lemma TearLighter(s: System, pid: Pid)
    requires Enabled(s, Tear(pid))
    ensures Lighter(s, Do(s, Tear(pid)), pid)
  {
    assert Do(s, Tear(pid)) == DoTear(s, pid, s.procs[pid].value);
  }

  lemma LighterDecreases(s: System, t: System, pid: Pid)
    requires Lighter(s, t, pid)
    ensures Total(t.procs) < Total(s.procs)
  {
    hide Weight, Total;
    TotalUpdate(s.procs, pid, t.procs[pid]);
  }

  lemma AskDecreases(s: System, pid: Pid)
    requires Enabled(s, Ask(pid))
    ensures Total(Do(s, Ask(pid)).procs) < Total(s.procs)
  {
    var t := Do(s, Ask(pid));
    TotalUpdate(s.procs, pid, t.procs[pid]);
    assert t.procs[..|s.procs|] == s.procs[pid := t.procs[pid]];
  }

  lemma StepDecreases(s: System, a: Action)
    requires Enabled(s, a) && !a.Arrive?
    ensures Total(Do(s, a).procs) < Total(s.procs)
  {
    hide Enabled, Do, Total, Lighter;
    if a.Ask? {
      AskDecreases(s, a.pid);
    } else {
      ActionLighter(s, a);
      LighterDecreases(s, Do(s, a), a.pid);
    }
  }

  lemma ActionLighter(s: System, a: Action)
    requires Enabled(s, a) && !a.Arrive? && !a.Ask?
    ensures Lighter(s, Do(s, a), a.pid)
  {
    match a
    case Go(pid) => GoLighter(s, pid);
    case Fail(pid) => FailLighter(s, pid);
    case Tear(pid) => TearLighter(s, pid);
    case GiveUp(pid) =>
  }

  /** Without new arrivals every run is finite, whatever fails. */
  lemma {:induction false} RunsAreBounded(s: System, actions: seq<Action>, t: System)
    requires IsRun(s, actions, t) && forall i | 0 <= i < |actions| :: !actions[i].Arrive?
    ensures |actions| + Total(t.procs) <= Total(s.procs)
    decreases |actions|
  {
    if actions != [] {
      StepDecreases(s, actions[0]);
      RunsAreBounded(Do(s, actions[0]), actions[1..], t);
    }
  }

  /** A run that cannot go on has finished every process. */
  lemma StuckMeansFinished(actions: seq<Action>, t: System)
    requires IsRun(INITIAL, actions, t)
    requires forall q: Pid :: !Enabled(t, Go(q))
    ensures forall p: Pid :: !Running(t, p)
  {
    InitialInv();
    RunInv(INITIAL, actions, t);
    forall p: Pid ensures !Running(t, p) {
      if Running(t, p) {
        var q := NoDeadlock(t, p);
      }
    }
  }
}
