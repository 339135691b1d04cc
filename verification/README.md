# Wktbox, modelled and verified

Wktbox runs development boxes: a host command line and a sidecar daemon inside
each box keep the desired port mappings, the rendered files, the running
publications and imports, and the persisted record of every box consistent.
Most of the logic consists of reconcilers and transactions that have to survive
any pattern of failing calls. This project models that logic and proves what it
keeps.

The outside world (Docker, Compose, the relay, sockets, files, clocks) is a
parameter: every foreign call of an operation has one outcome, and the theorems
quantify over all of them. A failing call may leave anything behind in what it
touches. A save of the state file is done, lost before its rename, or torn after
it (`Host.SaveResult`).

| file | what it models |
|---|---|
| `Ordering.dfy` | string order, sorted permutations, sorts of sets |
| `PortForward.dfy` | mappings, validation, the config file and the Compose override |
| `Allocator.dfy` | first-fit allocation of port blocks |
| `Records.dfy`, `Host.dfy` | records, properties of every persisted state, the state file with its history, the runtime of each box |
| `PortTransaction.dfy`, `PortOperations.dfy` | the port-mapping transaction and the operations around it |
| `LockProtocol.dfy` | host commands, background syncs and control requests as interleaved steps |
| `Imports.dfy` | the import reconciler and its proxies |
| `Discovery.dfy`, `Routes.dfy` | route discovery and the loopback reconciler |
| `ComposeStatus.dfy`, `Reconcile.dfy`, `Manager.dfy` | status of a box, loading, and the lifecycle operations |
| `Networks.dfy`, `ConnectionOperations.dfy` | connections between boxes |
| `ManagedBlock.dfy` | the managed block of an instructions file |
| `Wire.dfy` | relay preamble and response, DNS over TCP (RFC 1035, section 4.2.2) |

Code that changes things step by step is modelled by methods over classes
(`Host.World`, `Imports.ImportReconciler`, `Routes.Reconciler`, `Wire.Stream`).
The transaction is also a function, `PortTransaction.Apply`; the method
`ApplyPortMappings` is proved equal to it and the theorems are about it.

`dafny verify dfyconfig.toml` checks the whole project.

## What the proofs found

- A failed port change undoes everything or persists the degraded record, except
  in exactly four patterns (`PortTransaction.Escapes`, a condition on the failing
  calls): a candidate config that cannot be taken back after the override failed
  to be written; a stopped box whose rollback save is lost, after a save that
  failed behind its rename or with a file that cannot be restored; a running box
  whose two rollback saves are lost, after such a save or with something left
  behind; and an unlock error after the commit, reported as a failure although
  the change stands. `docs/port-forwarding.md:133-139` promises restoration or a
  degraded record in all cases. Inputs: `UnrestorableConfigEscapes`,
  `StoppedBoxKeepsCandidate`, `RunningBoxKeepsCandidate`,
  `RunningBoxStaysUnmarked`, `UnlockErrorAfterCommit`.
- A restart clears the runtime error without rendering the port files. After a
  rollback that could not restore the config file the box is reported ready
  while the files still hold the candidate (`PortTransaction.UnrestoredFilesStay`,
  `Manager.RestartOverCandidate`); the box serves its record exactly when the
  files it found lead to that (`Manager.RestartServes`).
  `docs/port-forwarding.md:138-141` presents a restart as the repair.
  `Manager.Ensure` does repair it.
- An event-mode sync may load a candidate after a failed file restore
  (`LockProtocol.FailedRestoreLeaksCandidate`); without one it never does. After
  a lost rollback save it may load a set that is not the recorded one
  (`LockProtocol.LostRollbackSplitsTheRecord`).
- A proxy replaced under an unchanged container and mapping name is never closed,
  as after a restart of its container (`Imports.RestartLeaks`); `Imports.LeaksExactly`
  says which proxies an `Apply` leaks.
- A proxy that exits between the second and the third reading of its running
  flag leaves an entry without a proxy (`Imports.ExitLeavesNoProxy`), and closing
  that entry later would panic. `Imports.ImportReconciler.ConvergedExactly` says
  when this happens; the next call requires that it did not.
- Only the first `Close` of the loopback reconciler closes sockets; those bound
  by an `Apply` after it stay open (`Routes.Reconciler.Close`, `Routes.CloseTwice`).
- Connecting boxes again does not add back a member that the recorded connection
  has lost (`ConnectionOperations.ConnectAddsNobody`,
  `ConnectionOperations.LostMemberStaysOut`).
- The two status observers disagree about an absent box that is still being
  created, and about a box without publications beside a portbridge that does
  not run (`ComposeStatus.ObserversAgree`, `ComposeStatus.CreatingBoxDisagrees`,
  `ComposeStatus.StoppedBridgeDisagrees`).

## Model

| member | source | states |
|---|---|---|
| PortForward.Validate | internal/portforward/model.go:84-122 | accepts exactly the individually valid mappings; a reason given is wrong with the mapping, and nothing checked before it is |
| PortForward.ValidNameSays | internal/portforward/model.go:25 | names are one to 63 lower-case letters, digits, dots, underscores and dashes, and start with a letter or digit |
| PortForward.ValidateSet | internal/portforward/model.go:42-82 | accepts exactly the sets of valid mappings without a clash of names, import targets or publication listeners; the index names the first offender, the reason what is wrong with it or which earlier mapping it repeats |
| PortForward.ListenerIdentifies | internal/portforward/model.go:65-78 | the listener text of a valid publication identifies its address and port |
| PortForward.ValidSetPermutation | internal/portforward/model.go:42-82 | acceptance does not depend on the order of the mappings |
| PortForward.SelectKeepsValid | internal/portforward/model.go:42-82 | acceptance is closed under removing mappings |
| PortForward.AnySortAgrees | internal/portforward/model.go:124-131 | every arrangement that the unstable sort may leave of a valid set is the same list |
| PortForward.FilterMembers | internal/portforward/model.go:133-142 | filtering keeps exactly the mappings of the direction |
| PortForward.FilterKeepsValid | internal/portforward/model.go:133-142 | the mappings of one direction of a valid set are a valid set |
| PortForward.RenderConfigCanonical | internal/portforward/render.go:41-52 | one result for all orderings of a set, also when it is rejected |
| PortForward.LoadAfterRender | internal/portforward/render.go:17-52 | rendering succeeds exactly on valid sets, and loading what was rendered returns the sorted set |
| PortForward.RenderConfigInjective | internal/portforward/render.go:41-52 | the rendered config determines the set |
| PortForward.RemovalRenders | internal/sandbox/ports.go:106-118 | what remains of a valid set after a removal always renders |
| PortForward.LineReads | internal/portforward/render.go:62-69 | a port line reads back as the address, the source port and the container port it was made of |
| PortForward.RenderedSay | internal/portforward/render.go:41-80 | an override exists exactly when something is published, with one line per published mapping by name, each reading back as address and source port on both sides; the config holds every mapping once, imports first, by name |
| Allocator.OverlapsAny | internal/ports/allocator.go:83-90 | true exactly when the candidate shares a port with a used block |
| Allocator.SlotsSay | internal/ports/allocator.go:68 | the slots are exactly the aligned blocks that end at a port |
| Allocator.BlockAvailable | internal/ports/allocator.go:92-117 | true exactly when every port of the block can be bound, the relay port on all addresses |
| Allocator.Reserve | internal/ports/allocator.go:55-81 | the first aligned block below the last port that shares no port with a used one and that the system grants; an error exactly when none exists |
| Allocator.ReserveCannotFail | internal/ports/allocator.go:55-81 | pigeonhole: with fewer aligned used blocks than slots and all ports granted, some slot is free |
| Allocator.BoundIsTight | internal/ports/allocator.go:55-81 | as many used blocks as slots can block every slot |
| Host.World.Save | internal/state/store.go:74-136 | an atomic replacement: the file holds the old or the new state, the new one whenever the save succeeds or is torn; the history of the file, with the runtimes of that moment, stays sound |
| Records.ErrorClearedOnlyBy | internal/sandbox/manager.go:214-251 | over a whole run a runtime error goes away only at a save while the box has the port runtime of its files, or when nothing of the box is left |
| Records.RecordLostOnlyBy | internal/sandbox/manager.go:502-542 | over a whole run a box record disappears only at a save while nothing of the box is left but, perhaps, a relay it never used |
| PortTransaction.RenderPortFiles | internal/sandbox/render.go:184-213 | writes config, then writes or removes the override; a failed step leaves the earlier ones |
| PortTransaction.RestorePortFiles | internal/sandbox/ports.go:415-416 | both snapshots are tried; each that succeeds is back |
| PortTransaction.ActivatePortMappings | internal/sandbox/ports.go:361-403 | relay, publications and imports in order, up to the first failure, each working from the files |
| PortTransaction.ActivationTouches | internal/sandbox/ports.go:361-403 | activation leaves the files alone, and publications or imports that did not change |
| PortTransaction.ActivationStops | internal/sandbox/ports.go:361-403 | what a failing call of an activation leaves stays, and the calls behind it are not made |
| PortTransaction.UndoRuntime | internal/sandbox/ports.go:405-442 | every step of the rollback is tried and all errors are kept |
| PortTransaction.UndoRestores | internal/sandbox/ports.go:405-442 | a rollback without errors brings back the whole runtime of a box that was in sync, because the files are restored first |
| PortTransaction.UndoLeaves | internal/sandbox/ports.go:405-442 | after a rollback files and runtime are as before exactly when no failed step left a difference |
| PortTransaction.RollBackPortMappings | internal/sandbox/ports.go:405-461 | the record is saved as before or marked, and marked again when that save fails |
| PortTransaction.CommitStopped | internal/sandbox/ports.go:306-327 | a stopped box changes files and record only; a failed save restores the files and saves the old record |
| PortTransaction.CommitRunning | internal/sandbox/ports.go:329-358 | activation, commit, and rollback of either |
| PortTransaction.ApplyPortMappings | internal/sandbox/ports.go:232-359 | runtime, state file and result of the whole transaction are those of the specification; other boxes are untouched; the history stays sound |
| PortTransaction.SuccessMeansCandidate | internal/sandbox/ports.go:256-359 | after a success files and state file hold the candidate, its files read back as its mappings, and for a running box that was in sync so does the runtime |
| PortTransaction.ApplySucceedsExactly | internal/sandbox/ports.go:232-359 | a change succeeds exactly when the mappings are valid, no call before the commit fails, the commit is saved and neither lock call fails |
| PortTransaction.AllOrNothing | internal/sandbox/ports.go:256-461 | for every pattern of failures: success, everything as before, or the degraded record in the state file, exactly outside the patterns of Escapes, which are conditions on the failing calls |
| PortTransaction.CleanRollbackUndoes | internal/sandbox/ports.go:306-461 | a failed change of a box in sync whose rollback meets no failure has undone everything and degrades nothing |
| PortTransaction.UnrestoredFilesStay | internal/sandbox/ports.go:405-416 | with an unrestorable config the files of a running box no longer hold its record |
| PortTransaction.StoppedBoxKeepsCandidate | internal/sandbox/ports.go:306-327 | a torn and then a lost save leave the candidate of a stopped box persisted and unmarked |
| PortTransaction.UnlockErrorAfterCommit | internal/sandbox/ports.go:247-253 | an unlock error is reported although the change stands |
| PortTransaction.UnrestorableConfigEscapes | internal/sandbox/ports.go:283-305 | with an override that cannot be removed and a config that cannot be written back, the config of the candidate stays beside the old record |
| PortTransaction.RunningBoxKeepsCandidate | internal/sandbox/ports.go:329-358 | a torn and two lost saves leave the candidate of a running box persisted as ready, over the old runtime |
| PortTransaction.RunningBoxStaysUnmarked | internal/sandbox/ports.go:405-461 | three lost saves and an unrestorable config leave the old record unmarked over the config of the candidate |
| PortTransaction.RemovalCandidate | internal/sandbox/ports.go:97-127 | a candidate exists exactly when every name, or some mapping of the direction, is there to remove; it keeps the others in order |
| PortTransaction.CandidateSays | internal/sandbox/ports.go:256-304 | the candidate is the record with the asked mappings, used now, and names its override exactly when something is published; missing paths are those inside its directory |
| PortOperations.PreflightPublicationBindings | internal/sandbox/ports.go:647-679 | passes exactly when every publication the box does not have yet can be bound |
| PortOperations.AdditionCandidate | internal/sandbox/ports.go:143-179 | a candidate exists exactly when the box is ready, the whole set is valid and the preflights pass |
| PortOperations.Change | internal/sandbox/ports.go:232-254 | the transaction on a loaded record succeeds exactly when Succeeds holds and neither lock call fails, is all or nothing outside Escapes, undoes everything when its rollback meets no failure, and success puts the record, and files that read back as it, at the new mappings |
| PortOperations.AddPortMappings | internal/sandbox/ports.go:130-180 | refused without touching any runtime exactly when a guard fails, otherwise one transaction on a ready box towards the old mappings and the new ones |
| PortOperations.RemovePortMappings | internal/sandbox/ports.go:75-128 | refused without touching any runtime exactly when nothing fits the request, otherwise one transaction on a ready or stopped box towards the mappings that stay |
| LockProtocol.StepInv | internal/loopback/daemon.go:181-256 | every step of the protocol, with changes, ensures, restarts, syncs and queries of any number of boxes, keeps locks exclusive, waits sound and the config file equal to the record outside a change |
| LockProtocol.RunInv | internal/loopback/daemon.go:181-256 | so does every run |
| LockProtocol.DataUnderLocks | internal/sandbox/manager.go:544-562 | files and record of a box change only under the global and the box lock, and under the transaction lock unless an ensure renders the recorded set |
| LockProtocol.LoadsUnderLocks | internal/loopback/daemon.go:181-256 | a config is loaded under the sync mutex, and under the transaction lock exactly by the syncs that react to events |
| LockProtocol.ChangeCommits | internal/sandbox/ports.go:232-359 | an undisturbed change preflights, writes, applies and commits its candidate |
| LockProtocol.EnsureRenders | internal/sandbox/manager.go:128-316 | an undisturbed ensure renders, applies and saves the recorded set |
| LockProtocol.ReadersRun | internal/sandbox/manager.go:350-372 | an undisturbed restart, sync or query ends with its one load, under its own kind, and changes no data |
| LockProtocol.EventSyncsLoadCommitted | internal/sandbox/ports.go:238-253 | in every interleaving without a failed file restore an event-mode sync loads only sets that were committed; candidates are seen by transaction-mode syncs alone |
| LockProtocol.EventSyncsLoadTheRecord | internal/sandbox/ports.go:238-253 | if moreover no rollback loses its last save, it loads the set that is recorded at that moment |
| LockProtocol.FailedRestoreLeaksCandidate | internal/sandbox/ports.go:405-416 | after a failed restore a reachable event-mode sync loads a set that was never committed, even when every rollback is saved |
| LockProtocol.LostRollbackSplitsTheRecord | internal/sandbox/ports.go:443-461 | after a lost rollback save a reachable event-mode sync loads a set that is not the recorded one, even when every restore succeeds |
| LockProtocol.AcquiresInOrder | internal/sandbox/manager.go:544-562 | every process takes locks in the order global, box, transaction, sync mutex |
| LockProtocol.NoDeadlock | internal/loopback/daemon.go:181-221 | in every reachable state with an unfinished process some process can go on without failing |
| LockProtocol.StepDecreases | internal/loopback/daemon.go:181-256 | every step except an arrival lowers a measure of the work left |
| LockProtocol.RunsAreBounded | internal/loopback/daemon.go:181-256 | without new arrivals every run is finite, whatever fails |
| LockProtocol.StuckMeansFinished | internal/loopback/daemon.go:181-256 | a run that cannot go on has finished every process |
| Imports.ImportSpecsExact | internal/loopback/imports.go:342-368 | the specs are exactly the running containers with a process, port helpers excepted, times the imports, each under a key of its own, by container and mapping name |
| Imports.FilterTwice | internal/loopback/imports.go:119-122 | filtering the filtered imports again changes nothing |
| Imports.KeyTextInjective | internal/loopback/imports.go:370-372 | container ID and mapping name can be read back from the key text |
| Imports.ImportReconciler.PruneExited | internal/loopback/imports.go:301-309 | keeps exactly the running entries and closes only exited proxies |
| Imports.ImportReconciler.ProbePhase | internal/loopback/imports.go:126-173 | exactly what is skipped and when the phase fails, in either mode; an event sync stops exactly the workloads whose conflict is their first reason to be skipped |
| Imports.ImportReconciler.StartPhase | internal/loopback/imports.go:175-206 | starts a proxy for every spec that is neither skipped nor kept, or closes all it started and records each failure as what it was |
| Imports.ImportReconciler.RollBackStarted | internal/loopback/imports.go:434-452 | closes exactly the proxies of this call and records a failure for each |
| Imports.ImportReconciler.SwapPhase | internal/loopback/imports.go:208-227 | the swap keeps the ledger: what is neither installed nor closed is leaked |
| Imports.ImportReconciler.Apply | internal/loopback/imports.go:108-230 | for proxy exits before each of the three readings: exactly when the probes pass in either mode, exactly what is skipped, stopped and warned of; a success installs for every other spec an entry with its container, process, source and target, and leaks exactly the outdated proxies; a failure changes no commitment, closes all it started and records each failure; a repetition when all runs does nothing; the ledger holds on every path |
| Imports.ImportReconciler.ConvergedExactly | internal/loopback/imports.go:208-227 | entries lack a proxy exactly for exits in the swap window; without such exits every spec that is not skipped runs |
| Imports.ImportReconciler.Preflight | internal/loopback/imports.go:78-106 | passes exactly when the probes of a transaction would pass |
| Imports.ImportReconciler.Close | internal/loopback/imports.go:273-284 | afterwards only leaked proxies are open |
| Imports.SwapKeepsLedger | internal/loopback/imports.go:208-227 | a proxy is open only when an entry holds it or it was replaced under an unchanged key |
| Imports.TransactionSkips | internal/loopback/imports.go:135-156 | in a transaction only vanished workloads and a conflicting desktop are skipped |
| Imports.ReplacedAreLeaks | internal/loopback/imports.go:208-227 | a converged swap leaks a running proxy exactly when its key is desired, not skipped, with another spec |
| Imports.RestartLeaks | internal/loopback/imports.go:208-227 | the proxy of a restarted container is replaced under its key and stays open, also after Close |
| Imports.ExitLeavesNoProxy | internal/loopback/imports.go:208-227 | an exit in the swap window leaves an entry without a proxy |
| Discovery.FactsExact | internal/loopback/discovery.go:16-60 | a published port counts exactly when a running container publishes it over TCP |
| Discovery.Canonical | internal/loopback/discovery.go:62-94 | ports strictly increasing, sources and upstreams sorted and without duplicates: the result is determined by the published ports alone |
| Discovery.DiscoverIgnoresOrder | internal/loopback/discovery.go:11-95 | permuting containers or the bindings of a container changes nothing, warnings included |
| Discovery.Collect | internal/loopback/discovery.go:24-59 | the loop over the bindings of one container adds exactly its published ports and UDP warnings |
| Discovery.Discover | internal/loopback/discovery.go:11-95 | the loops and sorts return one route per port that a running container publishes over TCP, with exactly the names and upstreams of the bindings, and exactly the UDP warnings in order |
| Discovery.DiscoverySays | internal/loopback/discovery.go:11-110 | a name loses its leading slash and falls back to the ID; an unspecified address dials the loopback address of its family, another address itself, unreadable text nothing, always at the host port |
| Discovery.ProtocolsSay | internal/loopback/discovery.go:28-58 | a protocol counts as TCP or UDP in any case of letters |
| Routes.Sockets.BindPair | internal/loopback/proxy.go:19-39 | both families are bound or neither is left open |
| Routes.OnePairPerPort | internal/loopback/reconciler.go:85-131 | one socket of each family listens on each active port and none elsewhere |
| Routes.TwoSocketsPerPort | internal/loopback/reconciler.go:85-131 | there are exactly twice as many open sockets as active ports |
| Routes.Reconciler.Apply | internal/loopback/reconciler.go:85-131 | the active ports become the wanted ones that were active or can be bound, kept ports keep their sockets, the others lose both, and the routes are strictly sorted, one per wanted port, listening exactly when active |
| Routes.Reconciler.Close | internal/loopback/reconciler.go:163-186 | the first call closes everything, a later one nothing; exactly when no socket is open afterwards |
| Routes.Reconciler.ActivePublication | internal/loopback/reconciler.go:220-230 | a connection accepted on an open socket always finds the publication of its port |
| Routes.RunKeepsPairs | internal/loopback/reconciler.go:85-186 | after every run of calls the open sockets are exactly the pairs of the active ports: by induction over steps that only say which sockets are closed and bound |
| Routes.StepKeepsPairs | internal/loopback/reconciler.go:85-186 | closing the pairs of ports given up and binding pairs for ports taken turns paired sockets into paired sockets |
| Routes.CloseTwice | internal/loopback/reconciler.go:163-186 | a Close, an Apply and a Close leave two sockets open |
| Routes.NeverRebound | internal/loopback/reconciler.go:104-108 | a port that every call wants keeps its two sockets through any run |
| Routes.WantedKeepsAll | internal/loopback/reconciler.go:89-92 | no discovered publication is dropped |
| ComposeStatus.DeriveStatus | internal/compose/client.go:780-796 | absent without containers, running with a running one, else stopped |
| ComposeStatus.ReadyFor | internal/compose/client.go:93-121 | ready exactly when the last container of each service is up, and of the portbridge when it is needed or present |
| ComposeStatus.Group | internal/compose/client.go:276-331 | grouping lines interleaved in any way gives each box what its own lines add up to; a short line fails the listing |
| ComposeStatus.ListManaged | internal/compose/client.go:248-348 | one project per box, sorted, each described by its lines alone |
| ComposeStatus.SummaryDescribes | internal/compose/client.go:276-346 | worktree and project of the first line, running with any line, healthy and portbridge by the last line of each service, gateway by any line, the block by the last desktop line that tells a port |
| ComposeStatus.FoldSays | internal/compose/client.go:299-347 | what the accumulator of a box says of its containers |
| ComposeStatus.ObserversAgree | internal/sandbox/manager.go:599-627 | listing and inspection give one status to a box, except exactly for an absent box still Creating and for a portbridge that does not run beside a box without publications |
| ComposeStatus.CreatingBoxDisagrees | internal/sandbox/manager.go:599-627 | a box without containers that is still Creating: the listing keeps it so, the inspection calls it stopped |
| ComposeStatus.StoppedBridgeDisagrees | internal/compose/client.go:93-121 | a stopped portbridge beside a box without publications: the listing calls it ready, the inspection an error |
| Reconcile.ReconcilesSoundly | internal/sandbox/manager.go:568-632 | reconciling keeps every record with its mappings and runtime error, never marks a record with an error Ready, and keeps all connections sound |
| Reconcile.ReconcilesSays | internal/sandbox/manager.go:568-632 | a listed box has worktree, project, gateway, block and status from the listing and keeps all else, or starts fresh; an unlisted one is stopped unless still being created |
| Reconcile.ReconcileKeepsDisjoint | internal/sandbox/manager.go:599-606 | blocks stay pairwise disjoint when the listing reports recorded blocks |
| Reconcile.LoadAndReconcile | internal/sandbox/manager.go:568-632 | the two loops produce exactly the reconciled state, field by field, and exactly when loading succeeds; a failure leaves the state file old or reconciled |
| Manager.SaveBox | internal/sandbox/manager.go:338-346 | a record that keeps its runtime error can always be saved with the history sound |
| Manager.PersistError | internal/sandbox/manager.go:634-646 | the record is saved with status Error and its runtime error unchanged |
| Manager.StartImportRelay | internal/sandbox/ports.go:710-721 | asks for the relay exactly when the record has imports; nothing else changes |
| Manager.ApplyActivePortRuntime | internal/sandbox/ports.go:723-747 | publications, then imports, each only when the record has some, up to the first failure |
| Manager.ActiveStepApplies | internal/sandbox/ports.go:723-747 | after a success publications and imports of the record are those of the files; files and relay are never touched |
| Manager.FinishReady | internal/sandbox/manager.go:298-316 | succeeds exactly when the save does and no connection of the box fails; the runtime error is cleared only together with a reapplied runtime |
| Manager.BringUp | internal/sandbox/manager.go:264-297 | relay, Compose call, inspection and port runtime, up to the first failure; a success exactly when the four services answer healthy, the portbridge runs if it is needed or there, and no call fails |
| Manager.BoxIsUpSays | internal/compose/client.go:93-121 | readiness in terms of the last answering container of each service |
| Manager.UpStepSays | internal/sandbox/manager.go:264-297 | bringing a box up succeeds exactly when every call does and its containers are up |
| Manager.UpStepStops | internal/sandbox/manager.go:264-297 | what each failing step leaves, and that the steps behind it are not taken |
| Manager.BoxesAfterSays | internal/sandbox/manager.go:290-316 | after every pattern of saves: other boxes as they were, and of the record only status and runtime error changed, Error when the box did not come up |
| Manager.UpStepApplies | internal/sandbox/manager.go:264-297 | a box that came up serves what the files say, its relay runs, and the files are as before |
| Manager.StartBox | internal/sandbox/manager.go:444-480 | the persisted boxes after every pattern of saves and failures, and exactly when the start succeeds |
| Manager.ChooseBlock | internal/sandbox/manager.go:150-167 | the given block, the recorded one, or the first aligned block in range that shares no port with the block of another box and can be bound; none exactly when there is no such block |
| Manager.ChosenKeepsDisjoint | internal/sandbox/manager.go:150-167 | giving a box such a block keeps all blocks pairwise disjoint |
| Manager.AppliedServes | internal/sandbox/ports.go:723-747 | rendered files and an applied runtime serve every recorded mapping |
| Manager.EnsureReady | internal/sandbox/manager.go:214-252 | a box that is up gets its port runtime reapplied and its record renewed, or its record marked: the persisted boxes on every path |
| Manager.EnsureStarted | internal/sandbox/manager.go:254-316 | the same for a box that Compose brings up, with the record saved first |
| Manager.Ensure | internal/sandbox/manager.go:128-316 | exactly when it succeeds and the persisted boxes on every path; a success leaves the record the caller asked for, ready, without runtime error and with its recorded mappings, and files that read back as them and the runtime serve them; blocks stay disjoint on every path |
| Manager.EnsuredRecordSays | internal/sandbox/manager.go:172-208 | name, worktree, gateway, block and paths of the record that Ensure renders, and what it keeps of the known one |
| Manager.StartingRecordSays | internal/sandbox/manager.go:254-262 | a known box whose containers are all stopped is saved as starting, any other as being created |
| Manager.BlockAcceptedSays | internal/sandbox/render.go:218-226 | a block that is rendered has room for its six services below the last port |
| Manager.EnsureLoaded | internal/sandbox/manager.go:150-252 | the same from the reconciled state: an invalid block or spec, or a failed rendering, fails it; the persisted boxes of each case |
| Manager.EnsureRendered | internal/sandbox/manager.go:196-316 | the same after rendering: which boxes are persisted, and success exactly when the box comes up or its runtime is reapplied |
| Manager.RestartServes | internal/sandbox/manager.go:429-480 | the bridge, the imports and the relay of a restarted box serve its record exactly when the loaded config filters to its mappings and the override is theirs |
| Manager.HeldFilesServe | internal/sandbox/manager.go:429-480 | files rendered for the record lead to serving it |
| Manager.RestartOverCandidate | internal/sandbox/manager.go:429-480 | a restart without failures over the config of another set succeeds, and a recorded publication is not served |
| Manager.Restart | internal/sandbox/manager.go:429-480 | succeeds exactly when the box comes up, both saves are done and no connection fails; the persisted boxes on every path, with status Error when it does not come up; a success clears the runtime error after the runtime was reapplied from the files, which it never changes; the box then serves its record exactly when those files lead to it |
| Manager.StopLoaded | internal/sandbox/manager.go:409-426 | the runtime and the state file after every pattern of failures, and exactly when the stop succeeds |
| Manager.StopKeeps | internal/sandbox/manager.go:409-426 | a success means stopped with the relay down; mappings, runtime error and files are kept on every path |
| Manager.Stop | internal/sandbox/manager.go:396-427 | the state file after every pattern of failures and exactly when the stop succeeds; a success means stopped with the relay down; mappings, runtime error and files are kept |
| Manager.Inspect | internal/sandbox/manager.go:318-348 | the persisted status is the one of the containers, with a runtime error never behind Ready; nothing else of the reconciled state changes |
| Manager.Touch | internal/sandbox/manager.go:482-500 | succeeds exactly when loading and saving do, and changes only the time of last use of the reconciled state, on every path |
| Manager.Destroy | internal/sandbox/manager.go:502-542 | succeeds exactly when every call does and then leaves no trace of the box in boxes, connections or runtime, and connections without it unchanged; the record and the runtime after every pattern of failures |
| Networks.ID | internal/connection/identity.go:14-30 | an identifier exists exactly for at least two valid and distinct members, and is the hash of the sorted members |
| Networks.IdIgnoresOrder | internal/connection/identity.go:14-30 | the identifier does not depend on the order of the members |
| Networks.ValidBoxIdSays | internal/connection/identity.go:12-24 | identifiers are twelve lower-case hexadecimal digits |
| Networks.Resolve | internal/sandbox/connections.go:394-430 | an exact identifier wins; otherwise the only match, and an error exactly for none or several |
| Networks.ResolveBox | internal/sandbox/connections.go:394-430 | resolves to a recorded box, by identifier, unique prefix of at least three characters, or unique name; not found and ambiguous exactly when no box or more than one matches |
| Networks.ResolveConnection | internal/sandbox/connections.go:432-468 | the same for connections, where an empty selector matches no name |
| Networks.ReconcileConnection | internal/sandbox/connections.go:200-259 | ready exactly when every member is ready and attached under both services; the first error decides otherwise; no error exactly when every call succeeds and the network is its own |
| Networks.ReconciledSays | internal/sandbox/connections.go:200-259 | when reconciling meets no error, and status, error and kept fields of what it records |
| Networks.ObserveConnection | internal/sandbox/connections.go:261-291 | the status that the network shows |
| Networks.ObservedSays | internal/sandbox/connections.go:261-291 | ready exactly when the network is its own and lists both endpoints of every ready member, an error exactly when it cannot be inspected |
| Networks.ObservationAgrees | internal/sandbox/connections.go:200-291 | observing a reconciled connection shows its recorded status exactly when reconciling succeeded or the inspection failed |
| Networks.ReconcileForBox | internal/sandbox/connections.go:305-325 | succeeds exactly when no connection of the box fails; members, names and identifiers never change |
| Networks.DisconnectRuntime | internal/sandbox/connections.go:364-376 | succeeds exactly when every endpoint is detached and the network removed; otherwise the first error |
| Networks.RemoveBox | internal/sandbox/connections.go:327-362 | succeeds exactly when no call for a connection of the box fails; connections then keep exactly the other members, those left with fewer than two are gone, connections without the box are untouched |
| Networks.RefreshedKeepsInv | internal/sandbox/connections.go:200-325 | reconciling connections keeps every persisted property |
| Networks.RemovedKeepsInv | internal/sandbox/connections.go:327-362 | taking a box out keeps members sorted, at least two, existing and among those the identifier was hashed from |
| ConnectionOperations.SelectMembers | internal/sandbox/connections.go:46-69 | succeeds exactly when the selectors stand for distinct ready boxes, which it returns in order |
| ConnectionOperations.Identify | internal/sandbox/connections.go:46-74 | succeeds exactly when they are at least two with valid identifiers, and returns them sorted with their hash |
| ConnectionOperations.NameIsFree | internal/sandbox/connections.go:75-83 | true exactly when no other connection has the name |
| ConnectionOperations.RequestedInv | internal/sandbox/connections.go:75-113 | the new or updated record keeps names unique and members sound |
| ConnectionOperations.ConnectAddsNobody | internal/sandbox/connections.go:85-98 | all selected boxes are members afterwards exactly when the recorded connection has not lost one |
| ConnectionOperations.LostMemberStaysOut | internal/sandbox/connections.go:85-98 | connecting three boxes again, one of which the recorded connection had lost, is admitted and leaves that one out |
| ConnectionOperations.ConnectLoaded | internal/sandbox/connections.go:85-127 | the state file after every pattern of saves, and exactly when connecting succeeds |
| ConnectionOperations.Connect | internal/sandbox/connections.go:24-127 | gets as far as its first save exactly when state and name are fine and the selectors name a connection that may bear the name; then the state file after every pattern of saves, and exactly when it succeeds; the record has the asked name and version, or keeps those it had, and a new one exactly the selected members; boxes and other connections are not changed |
| ConnectionOperations.NameFindsConnection | internal/sandbox/connections.go:432-468 | a recorded name finds its connection unless it starts or is an identifier |
| ConnectionOperations.Disconnect | internal/sandbox/connections.go:165-198 | succeeds exactly when the selector is resolved, every network call succeeds and the save does; then exactly the selected connection is gone, and a failing call marks it with its error |
| ManagedBlock.SucceedsExactly | internal/agentintegration/files.go:62-105 | installing and removing succeed exactly on texts with no marker or with one block opened before it is closed |
| ManagedBlock.BlockFound | internal/agentintegration/files.go:63-64 | the markers are found exactly where the block was put; none straddles its edges |
| ManagedBlock.Rendered | internal/agentintegration/files.go:62-85 | the text around the block is kept; in front of a new block stands an empty line, with no more newlines added than that takes |
| ManagedBlock.RenderIdempotent | internal/agentintegration/files.go:62-85 | installing twice is installing once |
| ManagedBlock.RemoveAfterRender | internal/agentintegration/files.go:76-105 | removing what was installed into a text without markers leaves the text and the separator |
| ManagedBlock.Reinstall | internal/agentintegration/files.go:62-105 | reinstalling after a removal gives the first installation back |
| ManagedBlock.RemoveIgnoresRender | internal/agentintegration/files.go:62-105 | updating a block first does not change what a removal leaves |
| Wire.Stream.ReadFull | internal/portforward/protocol.go:43-46 | everything asked for, or an error after what there is |
| Wire.WritePreamble | internal/portforward/protocol.go:21-40 | writes the encoding exactly for a token of 32 bytes and a name of 1 to 63, else nothing |
| Wire.ReadPreamble | internal/portforward/protocol.go:42-67 | value and remaining stream are those of the decoder |
| Wire.PreambleRoundTrip | internal/portforward/protocol.go:21-67 | reading a written preamble recovers it and leaves exactly the rest |
| Wire.PreambleCanonical | internal/portforward/protocol.go:42-67 | an accepted preamble re-encodes to the bytes consumed |
| Wire.PreamblePrefixFree | internal/portforward/protocol.go:42-67 | a preamble cut short is refused |
| Wire.WriteRelayResponse | internal/portforward/protocol.go:69-83 | status, length and message, clipped to 65535 bytes |
| Wire.ReadRelayResponse | internal/portforward/protocol.go:85-101 | value and remaining stream are those of the decoder |
| Wire.ResponseRoundTrip | internal/portforward/protocol.go:69-101 | the reader accepts exactly status zero, sees messages of up to 65535 bytes whole and leaves exactly the rest |
| Wire.WriteDnsFrame | internal/interconnect/dns.go:198-207 | writes a frame exactly for messages of up to 65535 bytes, else nothing |
| Wire.ReadDnsFrame | internal/interconnect/dns.go:186-196 | value and remaining stream are those of the decoder |
| Wire.FrameRoundTrip | internal/interconnect/dns.go:186-207 | reading a written frame recovers it and leaves exactly the rest |
| Wire.FramesRoundTrip | internal/interconnect/dns.go:186-207 | frames written in sequence are read back in sequence, with exactly the rest left |
| Wire.FramesCanonical | internal/interconnect/dns.go:186-196 | accepted bytes re-encode to what was consumed: no byte string is two sequences of n frames |

## Left out

- Docker and Compose command execution, the relay process, network namespaces,
  byte copying between connections: outcomes of calls.
- JSON, YAML and template text: a config file is what it encodes, or foreign text.
- IP parsing, regular expressions for Docker ports and SHA-256: `AddressParser`,
  `AddressReader`, parsed fields and `hash` are uninterpreted.
- Killed processes: the code has no recovery from them.
- Timeouts, jitter, log throttling, cancellation beyond a failing call, lock files
  below acquire and release, permissions of files and temporary files of a save.
- Record fields without influence on the modelled logic: branch, Compose and
  environment paths, creation and reconciliation times, the attached loopback
  status; the status of a new record is set by the same call that creates it.
- A mapping set handed to Ensure by its caller: no caller in the repository sets
  one, so Ensure renders the recorded mappings.
- Destroy as a step of the lock protocol.
- Statuses and warnings of the import reconciler as sorted lists for display, and
  the observed state of single port mappings.
- Attached network endpoints as state: endpoint calls have outcomes only.
- Agent skill trees, CLI wiring, doctor probes, gateway, Git discovery.
- Routes.Reconciler.Apply: event stream and imports of the status are set by other
  calls; Apply resets the imports, which are not part of the modelled status.
- ComposeStatus.ObserversAgree: assumes that listing and Compose show the same
  containers of the box, at most one per service.
- Imports.ImportReconciler.Apply: requires distinct container IDs and mapping
  names, and that no entry lacks its proxy; the source would panic otherwise.
- PortTransaction.AllOrNothing: requires the guards of the callers, a ready or
  stopped record and a candidate of another size.
