/** The port-mapping transaction (internal/sandbox/ports.go and RenderPortFiles
    of internal/sandbox/render.go), under every pattern of failures. */
module PortTransaction {
  import opened Ordering
  import opened PortForward
  import opened Records
  import opened Host

  /** A foreign call takes effect, or fails and leaves anything behind. */
  datatype Call<+T> = Done | Failed(left: T)

  /** One field per fallible call of a transaction; `true` means it fails.
      File writes replace atomically, so a failed one changes nothing. */
  datatype Faults = Faults(
    lock: bool,
    mkdir: bool,
    readConfig: bool,
    readOverride: bool,
    writeConfig: bool,
    writeOverride: bool,
    ensureRelay: Call<bool>,
    probeRelay: bool,
    applyBridge: Call<Bridge>,
    applyImports: Call<seq<Mapping>>,
    stopRelay: Call<bool>,
    save: SaveResult,
    restoreConfig: bool,
    restoreOverride: bool,
    undoEnsureRelay: Call<bool>,
    undoBridge: Call<Bridge>,
    undoImports: Call<seq<Mapping>>,
    undoStopRelay: Call<bool>,
    saveRollback: SaveResult,
    saveMarked: SaveResult,
    unlock: bool)

  const RESTORE_FAILED := "restore port files"
  const ROLLBACK_FAILED := "rollback port mappings"
  const PERSIST_FAILED := "persist rollback state"

  predicate HasImports(ms: seq<Mapping>) { Filter(ms, IMPORT) != [] }

  predicate HasPublications(ms: seq<Mapping>) { Filter(ms, PUBLISH) != [] }

  /** ensurePortRecordPaths. */
  function FillPaths(box: Box): Box
  {
    box.(configPath := if box.configPath == "" then box.directory + "/ports/ports.json" else box.configPath,
         tokenPath := if box.tokenPath == "" then box.directory + "/ports/relay.token" else box.tokenPath)
  }

  function Candidate(previous: Box, mappings: seq<Mapping>, now: int): Box
  {
    previous.(mappings := SortMappings(mappings),
              lastUsed := now,
              overridePath := if HasPublications(SortMappings(mappings))
                              then previous.directory + "/ports.override.yml" else "")
  }

  function Mark(box: Box, text: string): Box
  {
    box.(status := Error, runtimeError := text)
  }

  function Put(s: State, box: Box): State
  {
    s.(boxes := s.boxes[box.id := box])
  }

  /** A record with paths: those it has, or the ones inside its directory. */
  ghost predicate PathsFilled(box: Box, r: Box)
  {
    && r == box.(configPath := r.configPath, tokenPath := r.tokenPath)
    && r.configPath == (if box.configPath != "" then box.configPath else box.directory + "/ports/ports.json")
    && r.tokenPath == (if box.tokenPath != "" then box.tokenPath else box.directory + "/ports/relay.token")
  }

  /** The candidate is the record with other mappings, used now; it names its
      override exactly when something is published. */
  ghost predicate CandidateOf(previous: Box, mappings: seq<Mapping>, now: int, r: Box)
  {
    && r == previous.(mappings := r.mappings, overridePath := r.overridePath, lastUsed := now)
    && multiset(r.mappings) == multiset(mappings)
    && r.overridePath == if exists m :: m in mappings && m.direction == PUBLISH
                         then previous.directory + "/ports.override.yml" else ""
  }

  lemma CandidateSays(box: Box, mappings: seq<Mapping>, now: int)
    ensures PathsFilled(box, FillPaths(box)) && CandidateOf(box, mappings, now, Candidate(box, mappings, now))
  {
    hide Filter, SortMappings;
    OverrideIsNamed(box, mappings, now);
  }

  predicate PublicationsChanged(previous: Box, candidate: Box)
  {
    Filter(previous.mappings, PUBLISH) != Filter(candidate.mappings, PUBLISH)
  }

  predicate ImportsChanged(previous: Box, candidate: Box)
  {
    Filter(previous.mappings, IMPORT) != Filter(candidate.mappings, IMPORT)
  }

  // ---- foreign calls --------------------------------------------------------

  /** What a step leaves, and whether it succeeded. */
  datatype Step = Step(runtime: Runtime, ok: bool)

  function RelayCall(w: Runtime, up: bool, c: Call<bool>): Step
  {
    match c
    case Done => Step(w.(relayUp := up), true)
    case Failed(left) => Step(w.(relayUp := left), false)
  }

  /** PortRuntimeApply works from the files, not from the record alone. */
  function BridgeCall(ip: AddressParser, w: Runtime, box: Box, c: Call<Bridge>): Step
  {
    match c
    case Failed(left) => Step(w.(bridge := left), false)
    case Done =>
      var served := BridgeFromFiles(ip, w, box);
      if served.None? then Step(w, false) else Step(w.(bridge := served.value), true)
  }

  /** PortImportApply makes the sidecar read the config file. */
  function ImportsCall(ip: AddressParser, w: Runtime, c: Call<seq<Mapping>>): Step
  {
    match c
    case Failed(left) => Step(w.(imports := left), false)
    case Done =>
      var served := ImportsFromFiles(ip, w);
      if served.None? then Step(w, false) else Step(w.(imports := served.value), true)
  }

  // ---- the specification ----------------------------------------------------

  function RenderFiles(ip: AddressParser, f: Faults, w: Runtime, ms: seq<Mapping>): Step
  {
    var body := RenderConfig(ip, ms);
    if body.None? || f.writeConfig then Step(w, false)
    else if f.writeOverride then Step(w.(config := body), false)
    else Step(w.(config := body, override := RenderOverride(ms)), true)
  }

  function RestoreFiles(f: Faults, w: Runtime, before: Runtime): Step
  {
    Step(w.(config := if f.restoreConfig then w.config else before.config,
            override := if f.restoreOverride then w.override else before.override),
         !f.restoreConfig && !f.restoreOverride)
  }

  function Skip(w: Runtime): Step { Step(w, true) }

  function Activate(ip: AddressParser, f: Faults, w: Runtime, previous: Box, candidate: Box): Step
  {
    var imports := HasImports(candidate.mappings);
    var relay := if imports then RelayCall(w, true, f.ensureRelay) else Skip(w);
    if !relay.ok || (imports && f.probeRelay) then Step(relay.runtime, false) else
    var bridge := if PublicationsChanged(previous, candidate)
                  then BridgeCall(ip, relay.runtime, candidate, f.applyBridge) else Skip(relay.runtime);
    if !bridge.ok then bridge else
    var proxies := if ImportsChanged(previous, candidate)
                   then ImportsCall(ip, bridge.runtime, f.applyImports) else Skip(bridge.runtime);
    if !proxies.ok || imports || !HasImports(previous.mappings) then proxies
    else RelayCall(proxies.runtime, false, f.stopRelay)
  }

  /** The runtime part of rollbackPortMappings: every step is tried. */
  function Undo(ip: AddressParser, f: Faults, w: Runtime, before: Runtime, previous: Box, candidate: Box): Step
  {
    var imports := HasImports(previous.mappings);
    var files := RestoreFiles(f, w, before);
    var relay := if imports then RelayCall(files.runtime, true, f.undoEnsureRelay) else Skip(files.runtime);
    var bridge := if PublicationsChanged(previous, candidate)
                  then BridgeCall(ip, relay.runtime, previous, f.undoBridge) else Skip(relay.runtime);
    var proxies := if ImportsChanged(previous, candidate)
                   then ImportsCall(ip, bridge.runtime, f.undoImports) else Skip(bridge.runtime);
    var last := if imports then Skip(proxies.runtime) else RelayCall(proxies.runtime, false, f.undoStopRelay);
    Step(last.runtime, files.ok && relay.ok && bridge.ok && proxies.ok && last.ok)
  }

  /** What a transaction leaves: the runtime, the state file, and whether it
      reports success. */
  datatype Final = Final(runtime: Runtime, disk: State, ok: bool)

  function TransactStopped(f: Faults, w: Runtime, rendered: Runtime, disk: State, current: State,
                           previous: Box, candidate: Box): Final
  {
    var saved := SaveEffect(f.save, disk, Put(current, candidate));
    if f.save.Saved? then Final(rendered, saved, true) else
    var files := RestoreFiles(f, rendered, w);
    var record := if files.ok then previous else Mark(previous, RESTORE_FAILED);
    Final(files.runtime, SaveEffect(f.saveRollback, saved, Put(current, record)), false)
  }

  /** rollbackPortMappings. */
  function RollBack(ip: AddressParser, f: Faults, w: Runtime, before: Runtime, disk: State, current: State,
                    previous: Box, candidate: Box): Final
  {
    var undone := Undo(ip, f, w, before, previous, candidate);
    var record := if undone.ok then previous else Mark(previous, ROLLBACK_FAILED);
    var once := SaveEffect(f.saveRollback, disk, Put(current, record));
    if f.saveRollback.Saved? then Final(undone.runtime, once, false) else
    var marked := Mark(previous, PERSIST_FAILED);
    Final(undone.runtime, SaveEffect(f.saveMarked, once, Put(current, marked)), false)
  }

  function TransactRunning(ip: AddressParser, f: Faults, w: Runtime, rendered: Runtime, disk: State,
                           current: State, previous: Box, candidate: Box): Final
  {
    var active := Activate(ip, f, rendered, previous, candidate);
    var saved := if active.ok then SaveEffect(f.save, disk, Put(current, candidate)) else disk;
    if active.ok && f.save.Saved? then Final(active.runtime, saved, true)
    else RollBack(ip, f, active.runtime, w, saved, current, previous, candidate)
  }

  /** applyPortMappingsLocked. */
  function Transact(ip: AddressParser, f: Faults, now: int, w: Runtime, disk: State, current: State,
                    previous: Box, mappings: seq<Mapping>): Final
  {
    var candidate := Candidate(previous, mappings, now);
    if f.mkdir || f.readConfig || f.readOverride then Final(w, disk, false) else
    var rendered := RenderFiles(ip, f, w, candidate.mappings);
    if !rendered.ok then Final(RestoreFiles(f, rendered.runtime, w).runtime, disk, false)
    else if previous.status == Stopped then
      TransactStopped(f, w, rendered.runtime, disk, current, previous, candidate)
    else TransactRunning(ip, f, w, rendered.runtime, disk, current, previous, candidate)
  }

  /** applyPortMappings: the transaction under the transaction lock. */
  function Apply(ip: AddressParser, f: Faults, now: int, w: Runtime, disk: State, current: State,
                 previous: Box, mappings: seq<Mapping>): Final
  {
    if f.lock then Final(w, disk, false) else
    var r := Transact(ip, f, now, w, disk, current, previous, mappings);
    r.(ok := r.ok && !f.unlock)
  }

  // ---- what the files and the runtime say about a mapping set ---------------

  predicate FilesHold(ip: AddressParser, w: Runtime, ms: seq<Mapping>)
  {
    ValidSet(ip, ms) && w.config == RenderConfig(ip, ms) && w.override == RenderOverride(ms)
  }

  /** What a reader of the files sees of a mapping set. */
  ghost predicate FilesSay(w: Runtime, ms: seq<Mapping>)
  {
    ConfigSays(w.config, ms) && OverrideSays(w.override, ms)
  }

  predicate Serves(w: Runtime, ms: seq<Mapping>)
  {
    && w.bridge == (if HasPublications(ms) then BridgeUp(RenderOverride(ms), Filter(ms, PUBLISH)) else BridgeDown)
    && w.imports == Filter(ms, IMPORT)
    && (w.relayUp <==> HasImports(ms))
  }

  /** Files, runtime and record of a box agree. */
  predicate InSync(ip: AddressParser, w: Runtime, box: Box)
  {
    && FilesHold(ip, w, box.mappings)
    && Serves(w, box.mappings)
    && (box.overridePath != "" <==> HasPublications(box.mappings))
  }

  lemma FilterOfSorted(ip: AddressParser, ms: seq<Mapping>, direction: string)
    requires ValidSet(ip, ms)
    ensures Filter(SortMappings(ms), direction) == Filter(ms, direction)
  {
    var keep := (m: Mapping) => m.direction == direction;
    var sorted := SortMappings(ms);
    var a, b := Select(ms, keep), Select(sorted, keep);
    SortKeepsValid(ip, ms);
    SelectKeepsValid(ip, ms, keep);
    SelectKeepsValid(ip, sorted, keep);
    SelectMembers(ms, keep);
    SelectMembers(sorted, keep);
    forall m ensures multiset(a)[m] == multiset(b)[m] {
      assert m in ms <==> m in multiset(ms);
      assert m in sorted <==> m in multiset(sorted);
      if m in a {
        var p :| 0 <= p < |a| && a[p] == m;
        var q :| 0 <= q < |b| && b[q] == m;
        OnceIn(ip, a, p);
        OnceIn(ip, b, q);
      }
    }
    assert multiset(a) == multiset(b);
    SortPermutation(ip, a, b);
  }

  lemma FilesDetermineRuntime(ip: AddressParser, w: Runtime, box: Box)
    requires FilesHold(ip, w, box.mappings)
    requires box.overridePath != "" <==> HasPublications(box.mappings)
    ensures BridgeFromFiles(ip, w, box) ==
            Some(if HasPublications(box.mappings)
                 then BridgeUp(RenderOverride(box.mappings), Filter(box.mappings, PUBLISH)) else BridgeDown)
    ensures ImportsFromFiles(ip, w) == Some(Filter(box.mappings, IMPORT))
  {
    hide Filter, SortMappings, RenderConfig, LoadConfig, RenderOverride, ValidSet;
    LoadAfterRender(ip, box.mappings);
    FilterOfSorted(ip, box.mappings, PUBLISH);
    FilterOfSorted(ip, box.mappings, IMPORT);
  }

  lemma SortedTwice(ip: AddressParser, ms: seq<Mapping>)
    requires ValidSet(ip, SortMappings(ms))
    ensures ValidSet(ip, ms) && SortMappings(SortMappings(ms)) == SortMappings(ms)
  {
    SortKeepsValid(ip, ms);
    SortPermutation(ip, ms, SortMappings(ms));
  }

  // ---- success --------------------------------------------------------------

  /** A reported success leaves files and state file at the candidate, and
      the runtime too when the box was in sync and running before. */
  lemma SuccessMeansCandidate(ip: AddressParser, f: Faults, now: int, w: Runtime, disk: State, current: State,
                              previous: Box, mappings: seq<Mapping>)
    requires Apply(ip, f, now, w, disk, current, previous, mappings).ok
    ensures var r := Apply(ip, f, now, w, disk, current, previous, mappings);
            var candidate := Candidate(previous, mappings, now);
            && ValidSet(ip, mappings)
            && FilesHold(ip, r.runtime, candidate.mappings)
            && FilesSay(r.runtime, candidate.mappings)
            && InListOrder(candidate.mappings) && CandidateOf(previous, mappings, now, candidate)
            && r.disk == Put(current, candidate)
            && (previous.status == Stopped ==>
                  r.runtime == w.(config := r.runtime.config, override := r.runtime.override))
            && (previous.status != Stopped && InSync(ip, w, previous) ==> InSync(ip, r.runtime, candidate))
  {
    hide Filter, SortMappings, RenderConfig, LoadConfig, RenderOverride, ValidSet, OverrideSays, ConfigSays, InListOrder,
         CandidateOf;
    var candidate := Candidate(previous, mappings, now);
    LoadAfterRender(ip, candidate.mappings);
    SortKeepsValid(ip, mappings);
    SortedTwice(ip, mappings);
    SortedInListOrder(ip, mappings);
    RenderedSay(ip, candidate.mappings);
    CandidateSays(previous, mappings, now);
    var rendered := RenderFiles(ip, f, w, candidate.mappings).runtime;
    FilesDetermineRuntime(ip, rendered, candidate);
    if previous.status != Stopped && InSync(ip, w, previous) {
      ActivationServes(ip, f, w, rendered, previous, candidate);
    }
  }

  /** The candidate names an override exactly when it publishes something. */
  lemma OverrideIsNamed(previous: Box, mappings: seq<Mapping>, now: int)
    ensures Candidate(previous, mappings, now).overridePath != "" <==> exists m :: m in mappings && m.direction == PUBLISH
  {
    hide Filter, SortMappings;
    var sorted := SortMappings(mappings);
    FilterMembers(sorted, PUBLISH);
    assert forall m :: m in mappings <==> m in multiset(mappings);
    assert forall m :: m in sorted <==> m in multiset(sorted);
    assert Filter(sorted, PUBLISH) != [] ==> Filter(sorted, PUBLISH)[0] in Filter(sorted, PUBLISH);
    assert |previous.directory + "/ports.override.yml"| > 0;
  }

  lemma ActivationServes(ip: AddressParser, f: Faults, w: Runtime, rendered: Runtime, previous: Box, candidate: Box)
    requires InSync(ip, w, previous)
    requires FilesHold(ip, rendered, candidate.mappings)
    requires candidate.overridePath != "" <==> HasPublications(candidate.mappings)
    requires rendered == w.(config := rendered.config, override := rendered.override)
    requires Activate(ip, f, rendered, previous, candidate).ok
    ensures InSync(ip, Activate(ip, f, rendered, previous, candidate).runtime, candidate)
  {
    hide Filter, SortMappings, RenderConfig, LoadConfig, PortLines, ValidSet;
    var imports := HasImports(candidate.mappings);
    var relay := if imports then RelayCall(rendered, true, f.ensureRelay) else Skip(rendered);
    FilesDetermineRuntime(ip, relay.runtime, candidate);
    var bridge := if PublicationsChanged(previous, candidate)
                  then BridgeCall(ip, relay.runtime, candidate, f.applyBridge) else Skip(relay.runtime);
    FilesDetermineRuntime(ip, bridge.runtime, candidate);
  }

  /** The calls behind the first failing one of an activation are not made. */
  lemma ActivationStops(ip: AddressParser, f: Faults, w: Runtime, previous: Box, candidate: Box)
    ensures var r := Activate(ip, f, w, previous, candidate).runtime;
            var imports := HasImports(candidate.mappings);
            var relayFails := imports && (f.ensureRelay.Failed? || f.probeRelay);
            var bridgeFails := PublicationsChanged(previous, candidate) && f.applyBridge.Failed?;
            var importsFail := ImportsChanged(previous, candidate) && f.applyImports.Failed?;
            && (relayFails ==> r == w.(relayUp := if f.ensureRelay.Failed? then f.ensureRelay.left else true))
            && (!relayFails && bridgeFails ==> r == w.(relayUp := imports || w.relayUp, bridge := f.applyBridge.left))
            && (!relayFails && !bridgeFails && importsFail ==>
                  r.relayUp == (imports || w.relayUp) && (r.imports == f.applyImports.left || r.imports == w.imports))
  {
    hide Filter, LoadConfig;
  }

  // ---- failure --------------------------------------------------------------

  /** Files, state file and, for a box in sync, the runtime are as before;
      default paths may have been filled in. */
  predicate AsBefore(ip: AddressParser, w: Runtime, disk: State, previous: Box, r: Final)
  {
    && r.runtime.config == w.config && r.runtime.override == w.override
    && (InSync(ip, w, previous) ==> r.runtime == w)
    && (r.disk == disk || r.disk == Put(disk, previous))
  }

  /** The state file holds the earlier record, degraded. */
  predicate Degraded(previous: Box, r: Final)
  {
    previous.id in r.disk.boxes
    && var persisted := r.disk.boxes[previous.id];
    persisted.runtimeError != "" && persisted == Mark(previous, persisted.runtimeError)
  }

  // ---- when a transaction succeeds ------------------------------------------

  /** No call of an activation fails. */
  predicate Activates(f: Faults, previous: Box, candidate: Box)
  {
    && (HasImports(candidate.mappings) ==> f.ensureRelay.Done? && !f.probeRelay)
    && (PublicationsChanged(previous, candidate) ==> f.applyBridge.Done?)
    && (ImportsChanged(previous, candidate) ==> f.applyImports.Done?)
    && (!HasImports(candidate.mappings) && HasImports(previous.mappings) ==> f.stopRelay.Done?)
  }

  /** The config file was written. */
  predicate WritesConfig(ip: AddressParser, f: Faults, candidate: Box)
  {
    !f.mkdir && !f.readConfig && !f.readOverride && ValidSet(ip, candidate.mappings) && !f.writeConfig
  }

  /** No call before the end of the transaction fails. */
  predicate Succeeds(ip: AddressParser, f: Faults, previous: Box, candidate: Box)
  {
    && WritesConfig(ip, f, candidate) && !f.writeOverride && f.save.Saved?
    && (previous.status != Stopped ==> Activates(f, previous, candidate))
  }

  lemma ActivatesExactly(ip: AddressParser, f: Faults, w: Runtime, previous: Box, candidate: Box)
    requires FilesHold(ip, w, candidate.mappings)
    requires candidate.overridePath != "" <==> HasPublications(candidate.mappings)
    ensures Activate(ip, f, w, previous, candidate).ok <==> Activates(f, previous, candidate)
  {
    hide Filter, SortMappings, RenderConfig, LoadConfig, RenderOverride, ValidSet, FilesHold, BridgeFromFiles,
         ImportsFromFiles;
    var imports := HasImports(candidate.mappings);
    var relay := if imports then RelayCall(w, true, f.ensureRelay) else Skip(w);
    FilesHoldAfter(ip, w, relay.runtime, candidate.mappings);
    FilesDetermineRuntime(ip, relay.runtime, candidate);
    var bridge := if PublicationsChanged(previous, candidate)
                  then BridgeCall(ip, relay.runtime, candidate, f.applyBridge) else Skip(relay.runtime);
    FilesHoldAfter(ip, w, bridge.runtime, candidate.mappings);
    FilesDetermineRuntime(ip, bridge.runtime, candidate);
  }

  lemma FilesHoldAfter(ip: AddressParser, w: Runtime, v: Runtime, ms: seq<Mapping>)
    requires FilesHold(ip, w, ms) && v.config == w.config && v.override == w.override
    ensures FilesHold(ip, v, ms)
  {
  }

  /** What rendering a candidate gives, and that the candidate fits it. */
  lemma CandidateRenders(ip: AddressParser, f: Faults, now: int, w: Runtime, previous: Box, mappings: seq<Mapping>)
    ensures var candidate := Candidate(previous, mappings, now);
            && (candidate.overridePath != "" <==> HasPublications(candidate.mappings))
            && (ValidSet(ip, candidate.mappings) <==> ValidSet(ip, mappings))
            && (ValidSet(ip, candidate.mappings) <==> RenderConfig(ip, candidate.mappings).Some?)
            && (RenderFiles(ip, f, w, candidate.mappings).ok ==>
                  FilesHold(ip, RenderFiles(ip, f, w, candidate.mappings).runtime, candidate.mappings))
  {
    hide Filter, LoadConfig, SortMappings, RenderConfig, RenderOverride, ValidSet;
    var candidate := Candidate(previous, mappings, now);
    LoadAfterRender(ip, candidate.mappings);
    SortKeepsValid(ip, mappings);
    assert |previous.directory + "/ports.override.yml"| > 0;
  }

  /** Success, in terms of the calls alone. */
  lemma SucceedsExactly(ip: AddressParser, f: Faults, now: int, w: Runtime, disk: State, current: State,
                        previous: Box, mappings: seq<Mapping>)
    ensures Transact(ip, f, now, w, disk, current, previous, mappings).ok
            <==> Succeeds(ip, f, previous, Candidate(previous, mappings, now))
  {
    hide Filter, SortMappings, RenderConfig, LoadConfig, RenderOverride, ValidSet, Activate, Activates, FilesHold, Candidate,
         HasPublications;
    var candidate := Candidate(previous, mappings, now);
    CandidateRenders(ip, f, now, w, previous, mappings);
    var rendered := RenderFiles(ip, f, w, candidate.mappings);
    if rendered.ok {
      ActivatesExactly(ip, f, rendered.runtime, previous, candidate);
    }
  }

  /** The whole call succeeds exactly when no call before the commit, the commit
      and neither lock call fails. */
  lemma ApplySucceedsExactly(ip: AddressParser, f: Faults, now: int, w: Runtime, disk: State, current: State,
                             previous: Box, mappings: seq<Mapping>)
    ensures Apply(ip, f, now, w, disk, current, previous, mappings).ok
            <==> !f.lock && !f.unlock && Succeeds(ip, f, previous, Candidate(previous, mappings, now))
  {
    hide Transact, Succeeds, Candidate;
    SucceedsExactly(ip, f, now, w, disk, current, previous, mappings);
  }

  // ---- all or nothing -------------------------------------------------------

  /** A failed call left something else than wanted. */
  predicate Wrong<T(==)>(c: Call<T>, wanted: T) { c.Failed? && c.left != wanted }

  /** A file that cannot be restored and differs from what it was. */
  predicate FilesStay(ip: AddressParser, f: Faults, w: Runtime, candidate: Box)
  {
    || (f.restoreConfig && w.config != RenderConfig(ip, candidate.mappings))
    || (f.restoreOverride && w.override != RenderOverride(candidate.mappings))
  }

  /** A step of the rollback fails and leaves a difference. */
  predicate LeftBehind(ip: AddressParser, f: Faults, w: Runtime, previous: Box, candidate: Box)
  {
    || FilesStay(ip, f, w, candidate)
    || (InSync(ip, w, previous)
        && (|| Wrong(if HasImports(previous.mappings) then f.undoEnsureRelay else f.undoStopRelay, w.relayUp)
            || (PublicationsChanged(previous, candidate) && Wrong(f.undoBridge, w.bridge))
            || (ImportsChanged(previous, candidate) && Wrong(f.undoImports, w.imports))))
  }

  /** A stopped box: the rollback save is lost, after the first save had put
      the candidate in place or with a file that stays. */
  predicate StoppedEscapes(ip: AddressParser, f: Faults, w: Runtime, candidate: Box)
  {
    !f.save.Saved? && f.saveRollback.Lost? && (f.save.Torn? || FilesStay(ip, f, w, candidate))
  }

  /** A running box: both saves of the rollback are lost, after the first save
      had put the candidate in place or with something left behind. */
  predicate RunningEscapes(ip: AddressParser, f: Faults, w: Runtime, previous: Box, candidate: Box)
  {
    var activates := Activates(f, previous, candidate);
    && !(activates && f.save.Saved?)
    && f.saveRollback.Lost? && f.saveMarked.Lost?
    && ((activates && f.save.Torn?) || LeftBehind(ip, f, w, previous, candidate))
  }

  /** The failure patterns that neither undo nor degrade, as a condition on the
      failing calls: a config that cannot be taken back after the override
      failed, lost saves of the rollback, and an unlock error after the
      commit. */
  predicate Escapes(ip: AddressParser, f: Faults, w: Runtime, previous: Box, candidate: Box)
  {
    !f.lock
    && (|| (WritesConfig(ip, f, candidate)
            && if f.writeOverride then f.restoreConfig && w.config != RenderConfig(ip, candidate.mappings)
               else if previous.status == Stopped then StoppedEscapes(ip, f, w, candidate)
               else RunningEscapes(ip, f, w, previous, candidate))
        || (f.unlock && Succeeds(ip, f, previous, candidate)))
  }

  /** Nothing fails on the way back: the files are restored, every undo that is
      asked for works, and the first save of the rollback is done. */
  predicate RollsBackCleanly(f: Faults, previous: Box, candidate: Box)
  {
    && !f.restoreConfig && !f.restoreOverride && f.saveRollback.Saved?
    && (previous.status != Stopped ==>
          && (if HasImports(previous.mappings) then f.undoEnsureRelay.Done? else f.undoStopRelay.Done?)
          && (PublicationsChanged(previous, candidate) ==> f.undoBridge.Done?)
          && (ImportsChanged(previous, candidate) ==> f.undoImports.Done?))
  }

  /** A failed change whose rollback meets no failure has undone everything, and
      degrades nothing. */
  lemma CleanRollbackUndoes(ip: AddressParser, f: Faults, now: int, w: Runtime, current: State, previous: Box,
                            mappings: seq<Mapping>)
    requires previous.status in {Ready, Stopped} && InSync(ip, w, previous)
    requires RollsBackCleanly(f, previous, Candidate(previous, mappings, now)) && !f.unlock
    requires !Apply(ip, f, now, w, current, current, previous, mappings).ok
    ensures AsBefore(ip, w, current, previous, Apply(ip, f, now, w, current, current, previous, mappings))
  {
    hide Filter, SortMappings, RenderConfig, LoadConfig, RenderOverride, ValidSet, Candidate, HasPublications, HasImports,
         FilesHold, InSync;
    var candidate := Candidate(previous, mappings, now);
    CandidateRenders(ip, f, now, w, previous, mappings);
    var rendered := RenderFiles(ip, f, w, candidate.mappings);
    if !f.lock && !f.mkdir && !f.readConfig && !f.readOverride && rendered.ok && previous.status != Stopped {
      CleanUndo(ip, f, w, rendered.runtime, current, previous, candidate);
    }
  }

  lemma CleanUndoOk(ip: AddressParser, f: Faults, w: Runtime, before: Runtime, previous: Box, candidate: Box)
    requires InSync(ip, before, previous) && previous.status == Ready && RollsBackCleanly(f, previous, candidate)
    ensures Undo(ip, f, w, before, previous, candidate).ok
  {
    hide Filter, SortMappings, RenderConfig, LoadConfig, RenderOverride, ValidSet, PublicationsChanged, ImportsChanged,
         BridgeFromFiles, ImportsFromFiles;
    var files := RestoreFiles(f, w, before);
    var relay := if HasImports(previous.mappings) then RelayCall(files.runtime, true, f.undoEnsureRelay)
                 else Skip(files.runtime);
    FilesDetermineRuntime(ip, relay.runtime, previous);
    var bridge := if PublicationsChanged(previous, candidate)
                  then BridgeCall(ip, relay.runtime, previous, f.undoBridge) else Skip(relay.runtime);
    FilesDetermineRuntime(ip, bridge.runtime, previous);
  }

  lemma CleanUndo(ip: AddressParser, f: Faults, w: Runtime, rendered: Runtime, current: State, previous: Box, candidate: Box)
    requires InSync(ip, w, previous) && previous.status == Ready && RollsBackCleanly(f, previous, candidate)
    requires FilesHold(ip, rendered, candidate.mappings)
    requires rendered == w.(config := rendered.config, override := rendered.override)
    requires candidate.overridePath != "" <==> HasPublications(candidate.mappings)
    requires !TransactRunning(ip, f, w, rendered, current, current, previous, candidate).ok
    ensures AsBefore(ip, w, current, previous, TransactRunning(ip, f, w, rendered, current, current, previous, candidate))
  {
    hide Filter, RenderConfig, LoadConfig, RenderOverride, ValidSet, HasImports, PublicationsChanged, ImportsChanged, Undo,
         InSync, FilesHold, Activate;
    var active := Activate(ip, f, rendered, previous, candidate).runtime;
    CleanUndoOk(ip, f, active, w, previous, candidate);
    ActivationTouches(ip, f, rendered, previous, candidate);
    UndoRestores(ip, f, active, w, previous, candidate);
  }

  /** What a failed port change promises. */
  predicate UndoneOrDegraded(ip: AddressParser, w: Runtime, disk: State, previous: Box, r: Final)
  {
    AsBefore(ip, w, disk, previous, r) || Degraded(previous, r)
  }

  /** All or nothing: a port change that reports an error has undone
      everything or persisted the degraded record, exactly outside the patterns
      of Escapes. The callers' guards are the status of the record and a
      candidate of a different size. */
  lemma AllOrNothing(ip: AddressParser, f: Faults, now: int, w: Runtime, disk: State, current: State,
                     previous: Box, mappings: seq<Mapping>)
    requires disk == current && previous.status in {Ready, Stopped} && |mappings| != |previous.mappings|
    requires previous.id in disk.boxes && previous == FillPaths(disk.boxes[previous.id])
    ensures var r := Apply(ip, f, now, w, disk, current, previous, mappings);
            (r.ok || UndoneOrDegraded(ip, w, disk, previous, r))
            <==> !Escapes(ip, f, w, previous, Candidate(previous, mappings, now))
  {
    hide Filter, SortMappings, RenderConfig, LoadConfig, RenderOverride, ValidSet, Candidate, HasPublications, HasImports,
         TransactRunning, TransactStopped, RunningEscapes, StoppedEscapes, Activates, FilesHold, InSync;
    var candidate := Candidate(previous, mappings, now);
    CandidateRenders(ip, f, now, w, previous, mappings);
    CandidateIsNew(disk, previous, mappings, now);
    SucceedsExactly(ip, f, now, w, disk, current, previous, mappings);
    var rendered := RenderFiles(ip, f, w, candidate.mappings);
    if rendered.ok {
      if previous.status == Stopped {
        StoppedExactly(ip, f, w, rendered.runtime, disk, current, previous, candidate);
      } else {
        ActivatesExactly(ip, f, rendered.runtime, previous, candidate);
        RunningExactly(ip, f, w, rendered.runtime, disk, current, previous, candidate);
      }
    }
  }

  /** The candidate is neither the earlier record nor a degraded one. */
  ghost predicate IsNew(disk: State, previous: Box, candidate: Box)
  {
    && candidate.id == previous.id && candidate.status == previous.status
    && |candidate.mappings| != |previous.mappings|
    && previous.id in disk.boxes && previous == FillPaths(disk.boxes[previous.id])
  }

  lemma CandidateIsNew(disk: State, previous: Box, mappings: seq<Mapping>, now: int)
    requires previous.id in disk.boxes && previous == FillPaths(disk.boxes[previous.id])
    requires |mappings| != |previous.mappings|
    ensures IsNew(disk, previous, Candidate(previous, mappings, now))
  {
  }

  lemma NewIsNothing(disk: State, previous: Box, candidate: Box)
    requires IsNew(disk, previous, candidate)
    ensures Put(disk, candidate) != disk && Put(disk, candidate) != Put(disk, previous)
    ensures disk.boxes[previous.id] == previous || disk.boxes[previous.id].mappings == previous.mappings
  {
    assert Put(disk, candidate).boxes[previous.id].mappings == candidate.mappings;
    assert Put(disk, previous).boxes[previous.id].mappings == previous.mappings;
  }
  /** What rendering leaves. */
  predicate Rendered(ip: AddressParser, w: Runtime, rendered: Runtime, candidate: Box)
  {
    rendered == w.(config := RenderConfig(ip, candidate.mappings), override := RenderOverride(candidate.mappings))
  }

  lemma StoppedExactly(ip: AddressParser, f: Faults, w: Runtime, rendered: Runtime, disk: State, current: State,
                       previous: Box, candidate: Box)
    requires disk == current && previous.status == Stopped && IsNew(disk, previous, candidate)
    requires Rendered(ip, w, rendered, candidate)
    ensures var r := TransactStopped(f, w, rendered, disk, current, previous, candidate);
            && (r.ok ==> !UndoneOrDegraded(ip, w, disk, previous, r) && !StoppedEscapes(ip, f, w, candidate))
            && (!r.ok ==> (UndoneOrDegraded(ip, w, disk, previous, r) <==> !StoppedEscapes(ip, f, w, candidate)))
  {
    hide Filter, SortMappings, RenderConfig, LoadConfig, RenderOverride, ValidSet, InSync;
    NewIsNothing(disk, previous, candidate);
    assert Put(Put(current, candidate), previous) == Put(current, previous);
  }

  lemma RunningExactly(ip: AddressParser, f: Faults, w: Runtime, rendered: Runtime, disk: State, current: State,
                       previous: Box, candidate: Box)
    requires disk == current && previous.status == Ready && IsNew(disk, previous, candidate)
    requires Rendered(ip, w, rendered, candidate)
    requires Activate(ip, f, rendered, previous, candidate).ok <==> Activates(f, previous, candidate)
    ensures var r := TransactRunning(ip, f, w, rendered, disk, current, previous, candidate);
            && (r.ok ==> !UndoneOrDegraded(ip, w, disk, previous, r) && !RunningEscapes(ip, f, w, previous, candidate))
            && (!r.ok ==> (UndoneOrDegraded(ip, w, disk, previous, r) <==> !RunningEscapes(ip, f, w, previous, candidate)))
  {
    hide Filter, SortMappings, RenderConfig, LoadConfig, RenderOverride, ValidSet, Activate, Activates, Undo, LeftBehind,
         Rendered;
    NewIsNothing(disk, previous, candidate);
    var active := Activate(ip, f, rendered, previous, candidate).runtime;
    RenderedActive(ip, f, w, rendered, previous, candidate);
    UndoLeaves(ip, f, active, w, previous, candidate);
    UndoRestores(ip, f, active, w, previous, candidate);
  }

  /** A runtime that activation may leave. */
  predicate Activated(ip: AddressParser, w: Runtime, a: Runtime, previous: Box, candidate: Box)
  {
    && a.config == RenderConfig(ip, candidate.mappings) && a.override == RenderOverride(candidate.mappings)
    && (!PublicationsChanged(previous, candidate) ==> a.bridge == w.bridge)
    && (!ImportsChanged(previous, candidate) ==> a.imports == w.imports)
  }

  lemma RenderedActive(ip: AddressParser, f: Faults, w: Runtime, rendered: Runtime, previous: Box, candidate: Box)
    requires Rendered(ip, w, rendered, candidate)
    ensures Activated(ip, w, Activate(ip, f, rendered, previous, candidate).runtime, previous, candidate)
  {
    hide Activate, Filter, RenderConfig, RenderOverride;
    ActivationTouches(ip, f, rendered, previous, candidate);
  }

  /** A rollback leaves the files as before exactly when none stays. */
  lemma UndoLeavesFiles(ip: AddressParser, f: Faults, a: Runtime, w: Runtime, previous: Box, candidate: Box)
    requires Activated(ip, w, a, previous, candidate)
    ensures var undone, files := Undo(ip, f, a, w, previous, candidate).runtime, RestoreFiles(f, a, w).runtime;
            && undone.config == files.config && undone.override == files.override
            && (FilesStay(ip, f, w, candidate) <==> !(files.config == w.config && files.override == w.override))
  {
    hide Filter, RenderConfig, LoadConfig, RenderOverride;
  }

  /** The other steps, of a box in sync whose files are back. */
  lemma UndoLeavesRuntime(ip: AddressParser, f: Faults, a: Runtime, w: Runtime, previous: Box, candidate: Box)
    requires Activated(ip, w, a, previous, candidate) && InSync(ip, w, previous)
    requires RestoreFiles(f, a, w).runtime.config == w.config && RestoreFiles(f, a, w).runtime.override == w.override
    ensures var undone := Undo(ip, f, a, w, previous, candidate).runtime;
            && (undone.relayUp != w.relayUp
                <==> Wrong(if HasImports(previous.mappings) then f.undoEnsureRelay else f.undoStopRelay, w.relayUp))
            && (undone.bridge != w.bridge <==> PublicationsChanged(previous, candidate) && Wrong(f.undoBridge, w.bridge))
            && (undone.imports != w.imports <==> ImportsChanged(previous, candidate) && Wrong(f.undoImports, w.imports))
  {
    hide Filter, RenderConfig, LoadConfig, RenderOverride, ValidSet, BridgeFromFiles, ImportsFromFiles, FilesHold;
    var imports := HasImports(previous.mappings);
    var files := RestoreFiles(f, a, w).runtime;
    var relay := if imports then RelayCall(files, true, f.undoEnsureRelay) else Skip(files);
    FilesHoldAfter(ip, w, relay.runtime, previous.mappings);
    FilesDetermineRuntime(ip, relay.runtime, previous);
    var bridge := if PublicationsChanged(previous, candidate)
                  then BridgeCall(ip, relay.runtime, previous, f.undoBridge) else Skip(relay.runtime);
    FilesHoldAfter(ip, w, bridge.runtime, previous.mappings);
    FilesDetermineRuntime(ip, bridge.runtime, previous);
  }

  /** The runtime after a rollback is as before exactly when nothing is left
      behind. */
  lemma UndoLeaves(ip: AddressParser, f: Faults, a: Runtime, w: Runtime, previous: Box, candidate: Box)
    requires Activated(ip, w, a, previous, candidate)
    ensures var undone := Undo(ip, f, a, w, previous, candidate).runtime;
            LeftBehind(ip, f, w, previous, candidate) <==>
            !(undone.config == w.config && undone.override == w.override && (InSync(ip, w, previous) ==> undone == w))
  {
    hide Undo, InSync, FilesStay, Activated, HasImports, PublicationsChanged, ImportsChanged;
    UndoLeavesFiles(ip, f, a, w, previous, candidate);
    if !FilesStay(ip, f, w, candidate) && InSync(ip, w, previous) {
      UndoLeavesRuntime(ip, f, a, w, previous, candidate);
    }
  }

  /** Activation leaves the files, and what did not change, alone. */
  lemma ActivationTouches(ip: AddressParser, f: Faults, w: Runtime, previous: Box, candidate: Box)
    ensures var a := Activate(ip, f, w, previous, candidate).runtime;
            && a.config == w.config && a.override == w.override
            && (!PublicationsChanged(previous, candidate) ==> a.bridge == w.bridge)
            && (!ImportsChanged(previous, candidate) ==> a.imports == w.imports)
  {
    hide Filter, SortMappings, RenderConfig, LoadConfig, RenderOverride, ValidSet, HasImports, PublicationsChanged,
         ImportsChanged, BridgeFromFiles, ImportsFromFiles;
  }

  /** A rollback without failures brings back the whole runtime, because the
      files are restored before bridge and imports read them. */
  lemma UndoRestores(ip: AddressParser, f: Faults, w: Runtime, before: Runtime, previous: Box, candidate: Box)
    ensures var undone := Undo(ip, f, w, before, previous, candidate);
            undone.ok ==>
              && undone.runtime.config == before.config && undone.runtime.override == before.override
              && (InSync(ip, before, previous)
                  && (!PublicationsChanged(previous, candidate) ==> w.bridge == before.bridge)
                  && (!ImportsChanged(previous, candidate) ==> w.imports == before.imports)
                  ==> undone.runtime == before)
  {
    hide Filter, SortMappings, RenderConfig, LoadConfig, RenderOverride, ValidSet;
    if Undo(ip, f, w, before, previous, candidate).ok && InSync(ip, before, previous) {
      var files := RestoreFiles(f, w, before);
      var relay := if HasImports(previous.mappings) then RelayCall(files.runtime, true, f.undoEnsureRelay)
                   else Skip(files.runtime);
      FilesDetermineRuntime(ip, relay.runtime, previous);
      var bridge := if PublicationsChanged(previous, candidate)
                    then BridgeCall(ip, relay.runtime, previous, f.undoBridge) else Skip(relay.runtime);
      FilesDetermineRuntime(ip, bridge.runtime, previous);
    }
  }

  /** A running box whose config file cannot be restored keeps the candidate
      in it, whatever the record says. */
  lemma UnrestoredFilesStay(ip: AddressParser, f: Faults, now: int, w: Runtime, disk: State, current: State,
                            previous: Box, mappings: seq<Mapping>)
    requires previous.status == Ready && |mappings| != |previous.mappings|
    requires ValidSet(ip, mappings) && !f.lock && !f.mkdir && !f.readConfig && !f.readOverride
    requires !f.writeConfig && !f.writeOverride && f.restoreConfig
    ensures !FilesHold(ip, Apply(ip, f, now, w, disk, current, previous, mappings).runtime, previous.mappings)
  {
    hide Filter, SortMappings, LoadConfig, RenderOverride, ValidSet, Activate, Undo, RenderConfig;
    var candidate := Candidate(previous, mappings, now);
    SortKeepsValid(ip, mappings);
    LoadAfterRender(ip, candidate.mappings);
    var rendered := RenderFiles(ip, f, w, candidate.mappings).runtime;
    ActivationTouches(ip, f, rendered, previous, candidate);
    UndoKeepsConfig(ip, f, Activate(ip, f, rendered, previous, candidate).runtime, w, previous, candidate);
    ConfigTellsSize(ip, previous.mappings, candidate.mappings);
  }

  lemma UndoKeepsConfig(ip: AddressParser, f: Faults, w: Runtime, before: Runtime, previous: Box, candidate: Box)
    requires f.restoreConfig
    ensures Undo(ip, f, w, before, previous, candidate).runtime.config == w.config
  {
    hide Filter, LoadConfig, RenderConfig;
  }

  lemma ConfigTellsSize(ip: AddressParser, a: seq<Mapping>, b: seq<Mapping>)
    requires |a| != |b|
    ensures ValidSet(ip, a) ==> RenderConfig(ip, a) != RenderConfig(ip, b)
  {
    hide ValidSet, RenderConfig;
    if ValidSet(ip, a) && RenderConfig(ip, a) == RenderConfig(ip, b) {
      RenderConfigInjective(ip, a, b);
      SameLength(a, b);
    }
  }

  // ---- the patterns of Escapes occur ----------------------------------------

  const SAMPLE := Mapping("api", PUBLISH, "127.0.0.1", 18000, 8000, 0)

  const NO_FAULTS := Faults(
    false, false, false, false, false, false, Done, false, Done, Done, Done, Saved,
    false, false, Done, Done, Done, Done, Saved, Saved, false)

  lemma SampleIsValid(ip: AddressParser)
    requires ip("127.0.0.1")
    ensures ValidSet(ip, [SAMPLE]) && ValidSet(ip, [])
    ensures SortMappings([]) == []
  {
    assert ValidName("api");
  }

  /** Removing the only mapping of a stopped box while the state file fails
      twice: the file keeps the candidate, undegraded, and the mapping files
      keep the mapping. */
  lemma StoppedBoxKeepsCandidate(ip: AddressParser, box: Box, w: Runtime, now: int)
    requires ip("127.0.0.1")
    requires box.status == Stopped && box.mappings == [SAMPLE] && box == FillPaths(box)
    requires FilesHold(ip, w, box.mappings)
    ensures var disk := State(map[box.id := box], map[]);
            var r := Apply(ip, NO_FAULTS.(save := Torn, saveRollback := Lost), now, w, disk, disk, box, []);
            && !r.ok && r.runtime == w
            && r.disk.boxes[box.id].mappings == [] && r.disk.boxes[box.id].status == Stopped
            && r.disk.boxes[box.id].runtimeError == box.runtimeError
  {
    SampleIsValid(ip);
    hide Filter, RenderOverride;
  }

  /** The commit stands although the caller sees an error. */
  lemma UnlockErrorAfterCommit(ip: AddressParser, box: Box, w: Runtime, now: int)
    requires ip("127.0.0.1")
    requires box.status == Stopped && box.mappings == [SAMPLE] && box == FillPaths(box)
    ensures var disk := State(map[box.id := box], map[]);
            var r := Apply(ip, NO_FAULTS.(unlock := true), now, w, disk, disk, box, []);
            !r.ok && r.disk.boxes[box.id].mappings == [] && FilesHold(ip, r.runtime, [])
  {
    SampleIsValid(ip);
    LoadAfterRender(ip, []);
    hide Filter, RenderOverride;
  }

  /** Removing the only mapping of a box whose override cannot be removed and
      whose config cannot be written back: the files hold the candidate config
      beside the old record. */
  lemma UnrestorableConfigEscapes(ip: AddressParser, box: Box, w: Runtime, now: int)
    requires ip("127.0.0.1")
    requires box.status in {Ready, Stopped} && box.mappings == [SAMPLE] && box == FillPaths(box)
    requires FilesHold(ip, w, box.mappings)
    ensures var disk := State(map[box.id := box], map[]);
            var r := Apply(ip, NO_FAULTS.(writeOverride := true, restoreConfig := true), now, w, disk, disk, box, []);
            !r.ok && r.disk == disk && r.runtime.config == RenderConfig(ip, []) != w.config
  {
    SampleIsValid(ip);
    ConfigTellsSize(ip, box.mappings, []);
    hide Filter, RenderOverride;
  }

  /** The candidate of a removal from a running box, and its activation. */
  lemma SampleRemoval(ip: AddressParser, f: Faults, box: Box, w: Runtime, now: int)
    requires ip("127.0.0.1") && box.mappings == [SAMPLE] && InSync(ip, w, box)
    requires f == NO_FAULTS.(save := f.save, restoreConfig := f.restoreConfig, saveRollback := Lost, saveMarked := Lost)
    ensures var candidate := Candidate(box, [], now);
            var rendered := RenderFiles(ip, f, w, []);
            && candidate.mappings == [] && rendered.ok && rendered.runtime.config == RenderConfig(ip, [])
            && RenderConfig(ip, []).Some? && RenderConfig(ip, []) != w.config
            && Activate(ip, f, rendered.runtime, box, candidate).ok
            && Activated(ip, w, Activate(ip, f, rendered.runtime, box, candidate).runtime, box, candidate)
  {
    SampleIsValid(ip);
    ConfigTellsSize(ip, box.mappings, []);
    CandidateRenders(ip, f, now, w, box, []);
    hide Filter, RenderOverride, RenderConfig, Activate, ValidSet, SortMappings, Activated;
    var rendered := RenderFiles(ip, f, w, []).runtime;
    ActivatesExactly(ip, f, rendered, box, Candidate(box, [], now));
    RenderedActive(ip, f, w, rendered, box, Candidate(box, [], now));
  }

  /** Removing the only mapping of a running box while the save is torn and both
      saves of the rollback are lost: the runtime is as before, the state file
      keeps the candidate as ready. */
  lemma RunningBoxKeepsCandidate(ip: AddressParser, box: Box, w: Runtime, now: int)
    requires ip("127.0.0.1")
    requires box.status == Ready && box.mappings == [SAMPLE] && box == FillPaths(box) && InSync(ip, w, box)
    ensures var disk := State(map[box.id := box], map[]);
            var f := NO_FAULTS.(save := Torn, saveRollback := Lost, saveMarked := Lost);
            var r := Apply(ip, f, now, w, disk, disk, box, []);
            && !r.ok && r.runtime == w
            && r.disk.boxes[box.id].mappings == [] && r.disk.boxes[box.id].status == Ready
            && r.disk.boxes[box.id].runtimeError == box.runtimeError
  {
    var f := NO_FAULTS.(save := Torn, saveRollback := Lost, saveMarked := Lost);
    var candidate := Candidate(box, [], now);
    SampleRemoval(ip, f, box, w, now);
    hide Filter, RenderOverride, RenderConfig, Activate, InSync, ValidSet, Undo, SortMappings, HasImports;
    var active := Activate(ip, f, RenderFiles(ip, f, w, []).runtime, box, candidate).runtime;
    UndoLeaves(ip, f, active, w, box, candidate);
  }

  /** The same removal while every save is lost and the config cannot be written
      back: the state file keeps the old record unmarked, the config file holds
      the candidate. */
  lemma RunningBoxStaysUnmarked(ip: AddressParser, box: Box, w: Runtime, now: int)
    requires ip("127.0.0.1")
    requires box.status == Ready && box.mappings == [SAMPLE] && box == FillPaths(box) && InSync(ip, w, box)
    ensures var disk := State(map[box.id := box], map[]);
            var f := NO_FAULTS.(save := Lost, restoreConfig := true, saveRollback := Lost, saveMarked := Lost);
            var r := Apply(ip, f, now, w, disk, disk, box, []);
            !r.ok && r.disk == disk && r.runtime.config == RenderConfig(ip, []) != w.config
  {
    var f := NO_FAULTS.(save := Lost, restoreConfig := true, saveRollback := Lost, saveMarked := Lost);
    var candidate := Candidate(box, [], now);
    SampleRemoval(ip, f, box, w, now);
    hide Filter, RenderOverride, RenderConfig, Activate, InSync, ValidSet, Undo, SortMappings;
    var active := Activate(ip, f, RenderFiles(ip, f, w, []).runtime, box, candidate).runtime;
    UndoKeepsConfig(ip, f, active, w, box, candidate);
  }

  // ---- the transaction, step by step ----------------------------------------

  ghost predicate OnlyRuntime(before: map<string, Runtime>, after: map<string, Runtime>, id: string)
  {
    forall other | other != id :: (other in before <==> other in after) && (other in before ==> before[other] == after[other])
  }

  method RenderPortFiles(world: World, id: string, f: Faults, ms: seq<Mapping>) returns (ok: bool)
    modifies world`runtimes
    ensures var step := RenderFiles(world.ip, f, old(world.RuntimeOf(id)), ms);
            ok == step.ok && world.RuntimeOf(id) == step.runtime
    ensures OnlyRuntime(old(world.runtimes), world.runtimes, id)
  {
    var body := RenderConfig(world.ip, ms);
    if body.None? || f.writeConfig {
      return false;
    }
    world.SetRuntime(id, world.RuntimeOf(id).(config := body));
    if f.writeOverride {
      return false;
    }
    world.SetRuntime(id, world.RuntimeOf(id).(override := RenderOverride(ms)));
    return true;
  }

  method RestorePortFiles(world: World, id: string, f: Faults, before: Runtime) returns (ok: bool)
    modifies world`runtimes
    ensures var step := RestoreFiles(f, old(world.RuntimeOf(id)), before);
            ok == step.ok && world.RuntimeOf(id) == step.runtime
    ensures OnlyRuntime(old(world.runtimes), world.runtimes, id)
  {
    ok := true;
    if f.restoreConfig {
      ok := false;
    } else {
      world.SetRuntime(id, world.RuntimeOf(id).(config := before.config));
    }
    if f.restoreOverride {
      ok := false;
    } else {
      world.SetRuntime(id, world.RuntimeOf(id).(override := before.override));
    }
  }

  method ActivatePortMappings(world: World, f: Faults, previous: Box, candidate: Box) returns (ok: bool)
    requires candidate.id == previous.id
    modifies world`runtimes
    ensures var step := Activate(world.ip, f, old(world.RuntimeOf(previous.id)), previous, candidate);
            ok == step.ok && world.RuntimeOf(previous.id) == step.runtime
    ensures OnlyRuntime(old(world.runtimes), world.runtimes, previous.id)
  {
    hide Filter, BridgeFromFiles, ImportsFromFiles;
    var id := previous.id;
    var imports := HasImports(candidate.mappings);
    if imports {
      var relay := RelayCall(world.RuntimeOf(id), true, f.ensureRelay);
      world.SetRuntime(id, relay.runtime);
      if !relay.ok || f.probeRelay {
        return false;
      }
    }
    if PublicationsChanged(previous, candidate) {
      var bridge := BridgeCall(world.ip, world.RuntimeOf(id), candidate, f.applyBridge);
      world.SetRuntime(id, bridge.runtime);
      if !bridge.ok {
        return false;
      }
    }
    if ImportsChanged(previous, candidate) {
      var proxies := ImportsCall(world.ip, world.RuntimeOf(id), f.applyImports);
      world.SetRuntime(id, proxies.runtime);
      if !proxies.ok {
        return false;
      }
    }
    if !imports && HasImports(previous.mappings) {
      var relay := RelayCall(world.RuntimeOf(id), false, f.stopRelay);
      world.SetRuntime(id, relay.runtime);
      return relay.ok;
    }
    return true;
  }

  /** The steps of a rollback before the record is saved; none is skipped. */
  method UndoRuntime(world: World, f: Faults, before: Runtime, previous: Box, candidate: Box) returns (ok: bool)
    modifies world`runtimes
    ensures var step := Undo(world.ip, f, old(world.RuntimeOf(previous.id)), before, previous, candidate);
            ok == step.ok && world.RuntimeOf(previous.id) == step.runtime
    ensures OnlyRuntime(old(world.runtimes), world.runtimes, previous.id)
  {
    hide Filter, BridgeFromFiles, ImportsFromFiles, BridgeCall, ImportsCall, RelayCall, RestoreFiles, HasImports,
         PublicationsChanged, ImportsChanged;
    var id := previous.id;
    ok := RestorePortFiles(world, id, f, before);
    var imports := HasImports(previous.mappings);
    if imports {
      var relay := RelayCall(world.RuntimeOf(id), true, f.undoEnsureRelay);
      world.SetRuntime(id, relay.runtime);
      ok := ok && relay.ok;
    }
    if PublicationsChanged(previous, candidate) {
      var bridge := BridgeCall(world.ip, world.RuntimeOf(id), previous, f.undoBridge);
      world.SetRuntime(id, bridge.runtime);
      ok := ok && bridge.ok;
    }
    if ImportsChanged(previous, candidate) {
      var proxies := ImportsCall(world.ip, world.RuntimeOf(id), f.undoImports);
      world.SetRuntime(id, proxies.runtime);
      ok := ok && proxies.ok;
    }
    if !imports {
      var relay := RelayCall(world.RuntimeOf(id), false, f.undoStopRelay);
      world.SetRuntime(id, relay.runtime);
      ok := ok && relay.ok;
    }
  }

  /** Two states that differ at most in one box. */
  ghost predicate SameElsewhere(a: State, b: State, id: string)
  {
    && a.connections == b.connections
    && id in a.boxes && id in b.boxes
    && a.boxes[id := b.boxes[id]] == b.boxes
  }

  lemma RecordCanBeSaved(ip: AddressParser, hash: seq<string> -> string, disk: State, runtimes: map<string, Runtime>,
                         current: State, box: Box)
    requires Inv(hash, current) && SameElsewhere(current, disk, box.id) && BoxInv(box.id, box)
    requires HasError(disk, box.id) ==> box.runtimeError != ""
    ensures Inv(hash, Put(current, box)) && Follows(ip, disk, Entry(Plain, Put(current, box), runtimes))
    ensures SameElsewhere(current, Put(current, box), box.id)
  {
    hide RuntimeApplied;
    PutBoxKeepsInv(hash, current, box);
    forall id | HasError(disk, id) ensures HasError(Put(current, box), id) {
      if id != box.id {
        assert current.boxes[box.id := disk.boxes[box.id]][id] == current.boxes[id];
      }
    }
  }

  method RollBackPortMappings(world: World, f: Faults, before: Runtime, current: State, previous: Box, candidate: Box)
    requires world.Valid() && Inv(world.hash, current) && SameElsewhere(current, world.disk, previous.id)
    requires BoxInv(previous.id, previous)
    requires HasError(world.disk, previous.id) ==> previous.runtimeError != ""
    modifies world
    ensures world.Valid()
    ensures var r := RollBack(world.ip, f, old(world.RuntimeOf(previous.id)), before, old(world.disk), current,
                              previous, candidate);
            r == Final(world.RuntimeOf(previous.id), world.disk, false)
    ensures OnlyRuntime(old(world.runtimes), world.runtimes, previous.id)
  {
    hide Undo, Inv, Follows;
    var undone := UndoRuntime(world, f, before, previous, candidate);
    var kept := if undone then previous else Mark(previous, ROLLBACK_FAILED);
    RecordCanBeSaved(world.ip, world.hash, world.disk, world.runtimes, current, kept);
    var saved := world.Save(Put(current, kept), f.saveRollback, Plain);
    if !saved {
      var marked := Mark(previous, PERSIST_FAILED);
      RecordCanBeSaved(world.ip, world.hash, world.disk, world.runtimes, current, marked);
      saved := world.Save(Put(current, marked), f.saveMarked, Plain);
    }
  }

  lemma CurrentIsSound(world: World, current: State, id: string)
    requires world.Valid() && world.disk == current && id in current.boxes
    ensures Inv(world.hash, current) && BoxInv(id, FillPaths(current.boxes[id]))
  {
    assert Inv(world.hash, world.log[|world.log| - 1].state);
  }

  method CommitStopped(world: World, f: Faults, before: Runtime, current: State, previous: Box, candidate: Box)
    returns (ok: bool)
    requires world.Valid() && Inv(world.hash, current) && world.disk == current && previous.id in current.boxes
    requires BoxInv(previous.id, previous) && BoxInv(previous.id, candidate)
    requires current.boxes[previous.id].runtimeError == previous.runtimeError == candidate.runtimeError
    modifies world
    ensures world.Valid()
    ensures Final(world.RuntimeOf(previous.id), world.disk, ok) ==
            TransactStopped(f, before, old(world.RuntimeOf(previous.id)), old(world.disk), current, previous, candidate)
    ensures OnlyRuntime(old(world.runtimes), world.runtimes, previous.id)
  {
    hide Inv, Follows;
    RecordCanBeSaved(world.ip, world.hash, world.disk, world.runtimes, current, candidate);
    var saved := world.Save(Put(current, candidate), f.save, Plain);
    if saved {
      return true;
    }
    var restored := RestorePortFiles(world, previous.id, f, before);
    var kept := if restored then previous else Mark(previous, RESTORE_FAILED);
    RecordCanBeSaved(world.ip, world.hash, world.disk, world.runtimes, current, kept);
    saved := world.Save(Put(current, kept), f.saveRollback, Plain);
    return false;
  }

  method CommitRunning(world: World, f: Faults, before: Runtime, current: State, previous: Box, candidate: Box)
    returns (ok: bool)
    requires world.Valid() && Inv(world.hash, current) && world.disk == current && previous.id in current.boxes
    requires BoxInv(previous.id, previous) && BoxInv(previous.id, candidate)
    requires current.boxes[previous.id].runtimeError == previous.runtimeError == candidate.runtimeError
    modifies world
    ensures world.Valid()
    ensures Final(world.RuntimeOf(previous.id), world.disk, ok) ==
            TransactRunning(world.ip, f, before, old(world.RuntimeOf(previous.id)), old(world.disk), current,
                            previous, candidate)
    ensures OnlyRuntime(old(world.runtimes), world.runtimes, previous.id)
  {
    hide Inv, Follows, Activate, RollBack;
    var activated := ActivatePortMappings(world, f, previous, candidate);
    if activated {
      RecordCanBeSaved(world.ip, world.hash, world.disk, world.runtimes, current, candidate);
      activated := world.Save(Put(current, candidate), f.save, Plain);
    }
    if !activated {
      RollBackPortMappings(world, f, before, current, previous, candidate);
    }
    return activated;
  }

  /** applyPortMappings with applyPortMappingsLocked inside the lock. */
  method ApplyPortMappings(world: World, f: Faults, now: int, current: State, previous: Box, mappings: seq<Mapping>)
    returns (ok: bool)
    requires world.Valid() && world.disk == current && previous.status in {Ready, Stopped}
    requires previous.id in current.boxes && previous == FillPaths(current.boxes[previous.id])
    modifies world
    ensures world.Valid()
    ensures Apply(world.ip, f, now, old(world.RuntimeOf(previous.id)), old(world.disk), current, previous, mappings)
            == Final(world.RuntimeOf(previous.id), world.disk, ok)
    ensures OnlyRuntime(old(world.runtimes), world.runtimes, previous.id)
  {
    hide RenderFiles, TransactStopped, TransactRunning, Inv, Follows, Filter, SortMappings;
    if f.lock || f.mkdir || f.readConfig || f.readOverride {
      return false;
    }
    var id := previous.id;
    CurrentIsSound(world, current, id);
    var candidate := Candidate(previous, mappings, now);
    var before := world.RuntimeOf(id);
    var rendered := RenderPortFiles(world, id, f, candidate.mappings);
    if !rendered {
      var restored := RestorePortFiles(world, id, f, before);
      return false;
    }
    if previous.status == Stopped {
      ok := CommitStopped(world, f, before, current, previous, candidate);
    } else {
      ok := CommitRunning(world, f, before, current, previous, candidate);
    }
    ok := ok && !f.unlock;
  }

  // ---- candidates -----------------------------------------------------------

  predicate Removes(names: seq<string>, direction: string, m: Mapping)
  {
    if names == [] then m.direction == direction else m.name in names
  }

  ghost predicate RemovesNamed(ms: seq<Mapping>, names: seq<string>, direction: string, n: string)
  {
    exists j | 0 <= j < |ms| :: Removes(names, direction, ms[j]) && ms[j].name == n
  }

  /** The loop over the recorded mappings. */
  method SplitMappings(ms: seq<Mapping>, names: seq<string>, direction: string)
    returns (candidate: seq<Mapping>, removed: set<string>)
    ensures candidate == Select(ms, (m: Mapping) => !Removes(names, direction, m))
    ensures forall n :: n in removed <==> RemovesNamed(ms, names, direction, n)
    ensures removed != {} ==> |candidate| < |ms|
  {
    hide Removes, Select;
    var keep := (m: Mapping) => !Removes(names, direction, m);
    candidate, removed := [], {};
    NothingSelected(keep);
    for k := 0 to |ms|
      invariant candidate == Select(ms[..k], keep)
      invariant forall n :: n in removed <==> RemovesNamed(ms[..k], names, direction, n)
      invariant |candidate| <= k && (removed != {} ==> |candidate| < k)
    {
      SelectAppend(ms[..k], ms[k], keep);
      RemovesNext(ms[..k], ms[k], names, direction);
      assert ms[..k + 1] == ms[..k] + [ms[k]];
      if Removes(names, direction, ms[k]) {
        removed := removed + {ms[k].name};
      } else {
        candidate := candidate + [ms[k]];
      }
    }
    assert ms[..|ms|] == ms;
  }

  lemma NothingSelected(keep: Mapping -> bool)
    ensures Select([], keep) == []
  {
  }

  lemma RemovesNext(ms: seq<Mapping>, m: Mapping, names: seq<string>, direction: string)
    ensures forall n :: RemovesNamed(ms + [m], names, direction, n) <==>
                        RemovesNamed(ms, names, direction, n) || (Removes(names, direction, m) && m.name == n)
  {
    hide Removes;
    forall n
      ensures RemovesNamed(ms + [m], names, direction, n) <==>
              RemovesNamed(ms, names, direction, n) || (Removes(names, direction, m) && m.name == n)
    {
      assert (ms + [m])[|ms|] == m;
      if RemovesNamed(ms, names, direction, n) {
        var j :| 0 <= j < |ms| && Removes(names, direction, ms[j]) && ms[j].name == n;
        assert (ms + [m])[j] == ms[j];
      }
    }
  }

  /** RemovePortMappings: by name when names are given, else by direction. A
      candidate exists exactly when every name, or a mapping of the direction,
      is there to remove; it keeps all others in order. */
  method RemovalCandidate(ms: seq<Mapping>, names: seq<string>, direction: string) returns (r: Option<seq<Mapping>>)
    ensures r.Some? <==>
              if names == [] then direction in {IMPORT, PUBLISH} && exists i | 0 <= i < |ms| :: ms[i].direction == direction
              else forall n | n in names :: exists i | 0 <= i < |ms| :: ms[i].name == n
    ensures r.Some? ==> r.value == Select(ms, (m: Mapping) => !Removes(names, direction, m)) && |r.value| < |ms|
  {
    hide Select;
    if names == [] && direction != IMPORT && direction != PUBLISH {
      return None;
    }
    var candidate, removed := SplitMappings(ms, names, direction);
    RemovedExactly(ms, names, direction, removed);
    for k := 0 to |names|
      invariant forall j | 0 <= j < k :: names[j] in removed
    {
      if names[k] !in removed {
        assert names[k] in names;
        return None;
      }
    }
    if names == [] && removed == {} {
      return None;
    }
    assert names != [] ==> names[0] in removed;
    return Some(candidate);
  }

  lemma RemovedExactly(ms: seq<Mapping>, names: seq<string>, direction: string, removed: set<string>)
    requires forall n :: n in removed <==> RemovesNamed(ms, names, direction, n)
    ensures names == [] ==> (removed != {} <==> exists i | 0 <= i < |ms| :: ms[i].direction == direction)
    ensures forall n | n in names :: n in removed <==> exists i | 0 <= i < |ms| :: ms[i].name == n
  {
    if names == [] {
      forall i | 0 <= i < |ms| && ms[i].direction == direction ensures ms[i].name in removed {
        assert RemovesNamed(ms, names, direction, ms[i].name);
      }
      if n :| n in removed {
        assert RemovesNamed(ms, names, direction, n);
      }
    }
    forall n | n in names ensures n in removed <==> exists i | 0 <= i < |ms| :: ms[i].name == n {
      if i :| 0 <= i < |ms| && ms[i].name == n {
        assert Removes(names, direction, ms[i]);
      }
    }
  }

  lemma {:induction false} SelectAppend(ms: seq<Mapping>, m: Mapping, keep: Mapping -> bool)
    ensures Select(ms + [m], keep) == Select(ms, keep) + (if keep(m) then [m] else [])
  {
    if |ms| != 0 {
      assert (ms + [m])[1..] == ms[1..] + [m];
      SelectAppend(ms[1..], m, keep);
    }
  }
}
