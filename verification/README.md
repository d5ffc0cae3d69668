# Pantavisor, verified models

Dafny models of the parts of Pantavisor where a mistake costs a device: the A/B update protocol, the hot
transition between two revisions, the garbage collector, the two boot environment stores, the log transport,
and the string, metadata and signature cores. Verify everything with `dafny verify dfyconfig.toml`.

The C code that works by changing things is modelled by classes and methods that change the same fields, each
proved against a function or relation of the state before; the theorems are about those functions, over whole
runs where the code loops for ever.

**Update protocol** (`UpdateProtocol`, `UpdateSafety`, `UpdateRecovery`, `UpdateRetries`, `UpdateGuard`,
`UpdateSteps`, `Controller`). A transition system whose state is what survives a reboot (`pv_rev`, `pv_try`) and
the memory of one boot session. An event runs one handler of the controller's state table to its end, cuts power
inside it after any number of environment writes, or powers the device on. The boot script is not in the
repository: a boot reads either key, as it likes. Network, timers, signatures, checksums, container exits,
commands and the results of writes are inputs of each event; a write is stored, refused, or lost and reported as
stored, as on U-Boot. The class `Controller.Pantavisor` is the program in place, proved to take exactly these
steps; `Controller.PowerOn` is a power-on and the loop that follows, proved to be a run. `UpdateSteps` says of
every controller state, in the words of the inputs, exactly when which state follows.

**Boot environment** (`BootEnv`, `UbootEnv`, `GrubEnv`, `EnvStores`). One abstract store, a list of entries, and
the two flat buffers that implement it.

**States** (`States`, `Compare`, `Transfer`, `Transition`, `Containers`, `HotUpdate`, `HotSession`).
System1 states: items are linked to the platform that their first path component names. The comparison marks
platforms, stop, unmount, transfer, mount and start change the running state. That the result equals a load from scratch holds exactly
under two conditions (`Faithful`): no pending item belongs to a platform that the update deletes, and no
brand-new item to a platform that keeps running. `NewcomerExample` is a concrete pair of states without the
second, which the code accepts and does not complete. `HotSession` is a boot followed by any number of updates.

**Garbage collector** (`GarbageCollector`). Revisions hold hard links to pool objects; the collector decides by
link count, and may be cut at any removal.

**Log transport** (`DlList`, `LogPool`, `LogPusher`, `LogFrame`). The circular list over nodes in memory, the
buffer pool on top of it, the pusher that keeps its position in an attribute of the file, and the framed
messages.

**Cores** (`StrReplace`, `JsonEscape`, `UserMeta`, `Signature`; `Decimal`, `CStrings` and `Wrappers` are shared).

Where the code differs from what it says of itself, the model follows the code, and the difference is a theorem:

- The rollback point in memory is the stored one except after a commit whose first write was refused or lost
  (`RollbackPointIsStored`, `FailedCommitRunsAhead`).
- U-Boot does not look at the result of its last `write()`. A commit whose first write is lost so and the second
  stored leaves (old, none), and the collector may remove `old`, which the next boot runs
  (`CommitIsCrashConsistent`, `LostCommitIsUnprotected`).
- A device that never stored `pv_rev` falls back to revision 0, which the collector may remove in the first
  trial unless the factory revision is kept (`RollbackPointIsProtected`, `FactoryIsUnprotected`).
- A fall-back drops its update even if the removal of `pv_try` fails; the next boot may then read a revision the
  collector was free to remove (`TryIsProtected`, `TryIsUnprotected`).
- Unsetting a key drops every entry that starts with it, so it leaves another key alone exactly when neither is
  the beginning of the other (`OthersKeepExactly`, `UnsetTryRemovesTrying`).
- The GRUB loops see 997 bytes, since the header size macro is not in parentheses: what a set writes beyond is
  lost (`OverfullIsLost`).
- The comparison follows the null platform of an unowned item that changes while the update adds its platform
  (`Comparable`, `AdoptionExample`).
- An installation over existing paths keeps their links, right or wrong (`LinkObjects`).
- The encoder of log frames takes the running total off the space left at each field, so a long line arrives
  only if more than three, two and one times the field widths are free (`SendLine`), and writes outside its
  buffer if fewer are (`InsideExactly`).
- A failed upload skips texts that stand before a blank line (`FailureLoses`), and a call of the pusher may stop
  before the end of its block, because the count of unread bytes falls by the running offset.
- The sentinel trick of the unescaping function is a replacement only for codes without a border
  (`UnescapeIsReplace`).
- A local write of user metadata reports failure when the value was there already; a malformed answer of the
  cloud is swept after like an empty one; a key that begins with a dot is saved but never loaded again (`Load`).
- A pair that a signature excludes counts as covered, so strict mode accepts pairs that nothing signs
  (`StrictMeans`, `UnsignedIsAccepted`).

## Model

| member | source | states |
|---|---|---|
| UpdateSafety.CommittedRevisionWasTried | bootloader.c:79-150 | in every run, over any reboots, power cuts, commands, network, timer and write outcomes, the stored `pv_rev` is the initial one or a revision that was itself booted as `pv_try`, passed every check and start of the run step, and then stayed in TESTING with no exited platform seen until a wait step found the commit timer finished |
| UpdateSafety.TrialsJustified | updater.c:1140-1155 | a session that is in a trial has the history of one: the boot as `pv_try`, the checks passed, the timer begun at a wait step, no exited platform since |
| UpdateSafety.InvHolds | pantavisor.c:703-739 | every reachable state keeps the invariant: a held update fits the controller state, names its revision wherever it may be installed or finished, and its retries are within the limit until the way to a reboot begins; a state is loaded where handlers rely on it and none before the first run step |
| UpdateSafety.InvStep | pantavisor.c:717-722 | each event keeps that invariant: a handler run to its end, cut after any number of writes, or a boot |
| UpdateSafety.HandlerGood | pantavisor.c:178-603 | a handler writes nothing, one value of `pv_try`, or the commit of the running revision, the last only from a wait step that saw no exited platform in a trial with the commit timer finished; only that commit changes the rollback point in memory |
| UpdateSafety.HandlerTrial | pantavisor.c:178-281 | the only way into a live trial is a run step that passed every check in a session trying an update; the only way to stay in one is a handler that sees no exited platform |
| UpdateSafety.RevStep | bootloader.c:79-91 | an event changes the stored `pv_rev` only to the running revision of a trial, at a wait step that meets the commit condition |
| UpdateSafety.FinishFacts | updater.c:1157-1205 | finishing keeps the running revision, drops the update or leaves it for another download, and writes part of a commit only when the update was in testing after a reboot |
| UpdateRecovery.CommitIsCrashConsistent | bootloader.c:137-144 | power lost anywhere inside a commit of R over `old`, or a commit run to its end, each write stored, refused or lost, leaves (old, R), (R, R), (R, none) or (old, none), in every run; the last exactly when the first write is lost and the second stored |
| UpdateRecovery.TrialRestarts | updater.c:1859-1884 | from (old, R) booted as `pv_try`, and from an interrupted commit (R, R) whichever key is read, the next session begins the trial of R again |
| UpdateRecovery.PassedTrialCommits | pantavisor.c:347-376 | at any point of any run, a wait step that meets the commit condition (right away or from testing) stores exactly (R, none) and keeps R as rollback point with no update held when the network gate lets it through and both writes are stored; every other outcome is given by the gate and the results of the writes |
| UpdateRecovery.RollbackPointIsStored | bootloader.c:238-245 | at any point of any run the rollback point in memory is the stored `pv_rev` if and only if no commit of this session, of another revision than the stored one, had its first write refused or lost; after such a commit no trial begins in the session |
| UpdateRecovery.DoneStep | bootloader.c:137-144 | one event: the two part exactly at a commit whose network gate is open, whose first write is refused or lost, and whose revision is not the stored one; any other handler leaves both alone |
| UpdateRecovery.BootIsKnown | bootloader.c:187-248 | at any point of any run the revision in memory is the one the session was booted as, a trial runs it, and it is the rollback point too where no `pv_rev` is stored |
| UpdateRecovery.RollbackPointIs | bootloader.c:236-245 | so at any point the rollback point is the stored `pv_rev`, or what was booted if none is stored or a commit of the session failed |
| UpdateRecovery.FailedCommitRunsAhead | bootloader.c:79-91 | both failing commits are reachable from the stored pair (1, 2) in five events: a refused first write ends with 2 in memory, 1 in the store and the controller in ROLLBACK; a lost one with a stored second goes on waiting with no update held, 2 as rollback point, and 1 to be booted whichever key is read |
| UpdateRetries.DownloadsAreBounded | updater.c:1090-1113 | an update accepted with retry count r runs the object download at most limit minus r times while it is held, over any run |
| UpdateRetries.HandlerKeeps | updater.c:1031-1057 | a held update is never replaced by another: in every controller state a handler keeps it with its pending revision, with a retry count that grows with each download, or drops it |
| UpdateGuard.TryIsHeld | updater.c:1797-1857 | at any point of any run before the way to a reboot, a stored `pv_try` is the revision the session works on if and only if the last boot or installation of the session did not miss it: a boot from the other key, or an installation of another revision whose write was lost |
| UpdateGuard.SubjectIsAim | pantavisor.c:178-281 | at any point of any run before the way to a reboot, the session works on a revision if and only if its last boot or installation was for it |
| UpdateGuard.SubjectStep | updater.c:1797-1857 | one event: only an installation changes the revision a session works on, and stores it as `pv_try` unless the write is lost; any other handler keeps `pv_try` or removes it |
| UpdateGuard.RunningIsServed | pantavisor.c:178-281 | the revision of the running state is the last one aimed at, and during the switch of a hot update the one before |
| UpdateGuard.FallbackCompletes | updater.c:1157-1205 | in any run, a session booted as another revision than the stored `pv_try` keeps both stored values until its first wait step that gets as far as the update; that step drops the update, goes on with the booted revision, and leaves (old, none) if its write is stored |
| UpdateGuard.TryIsLeftOver | updater.c:1164-1164 | a missed `pv_try` is reachable: a fall-back whose removal is refused or lost drops the update while the store still names its revision |
| UpdateRetries.ExhaustedUpdateIsDropped | updater.c:1157-1180 | once the count passes the limit the next attempt downloads nothing and holds no update afterwards |
| UpdateRetries.RetriesCountDownloads | updater.c:1757-1795 | over any run in which an update is held its retry count grows at least by the number of downloads |
| UpdateRetries.AcceptedUpdate | updater.c:625-673 | a wait step takes up a new update only if the offered step parses, is not in progress, is no older than the running revision, is within the retry limit and has a valid signature; it is the offered revision with its retries |
| UpdateSteps.AcceptsExactly | updater.c:625-673 | and with none held it takes one up exactly when the device is claimed, on line, logged in and through the factory upload, its metadata is sent, and such a step is offered |
| UpdateSteps.UpdateWasOffered | updater.c:1031-1057 | in every run a remote update that is queued, to be fetched again, being switched to or tested after that was taken up in this session by a wait step whose inputs met every one of these conditions |
| UpdateSteps.WaitGivesUp | pantavisor.c:347-490 | a wait step goes to ROLLBACK exactly when a platform exits or the connection fails in a trial or test (in a trial: with the rollback timer over), or the store refuses a commit |
| UpdateSteps.WaitLeads | pantavisor.c:378-490 | and exactly when it leads to a reboot, the factory upload, an update or a command |
| UpdateSteps.WaitKeepsExactly | updater.c:1140-1205 | what becomes of a held update: nothing until the step comes to it; then testing until the timer is over, kept for another download within the limit, kept after a refused commit, dropped otherwise |
| UpdateSteps.WaitRemembers | updater.c:1157-1205 | a wait step keeps the running revision; `pv_try` is unset for an update that failed, and nothing is written unless it failed or is in a trial |
| UpdateSteps.WaitHears | pantavisor.c:429-490 | a command is passed on, and a device that is not claimed learns whether it is |
| UpdateSteps.RunLeads | pantavisor.c:178-281 | a run step ends in WAIT exactly when every check and start it makes succeeds, in ROLLBACK otherwise; which revision it runs, and when an update begins as a trial or as failed |
| UpdateSteps.UpdateInstalls | pantavisor.c:580-603 | an update that is fetched and installed is stored as `pv_try` and reboots exactly for a runlevel up to 2; else it is switched to if the platforms stop |
| UpdateSteps.UpdateFails | updater.c:1757-1857 | one that is not goes back to WAIT; it is held on exactly for another download within the limit, and `pv_try` is unset exactly when its objects could not be linked |
| UpdateSteps.DownloadMatters | updater.c:1757-1795 | the object download runs exactly when its answer matters |
| UpdateSteps.CommandLeads | pantavisor.c:492-578 | a command is obeyed only while no update is held; exactly when each of them leads to a reboot, a power-off or an update, and to which |
| UpdateSteps.OthersLead | pantavisor.c:605-700 | initialisation, factory upload and rollback: revision 0 stops as an error, any other reboots with its update failed |
| Controller.Pantavisor.constructor | bootloader.c:187-248 | the memory a boot begins with, from the key the boot script read and the stored pair |
| Controller.Pantavisor.WriteEnv | bootloader.c:79-114 | one environment write: stored, refused, or lost and reported as stored; only the first changes the store |
| Controller.Pantavisor.SetCommittedRev | bootloader.c:137-144 | the two writes of a commit in order, stopping at the first failure |
| Controller.Pantavisor.UpdateResume | updater.c:1859-1884 | in place what `Resume` of the transition system does |
| Controller.Pantavisor.UpdateTest | updater.c:1140-1155 | in place what `Test` does |
| Controller.Pantavisor.UpdateFinish | updater.c:1157-1205 | in place what `Finish` does, with exactly its writes |
| Controller.Pantavisor.CheckNewUpdates | updater.c:1031-1057 | in place what `CheckForUpdates` does |
| Controller.Pantavisor.UpdateDownload | updater.c:1757-1795 | in place what `DownloadStep` does |
| Controller.Pantavisor.UpdateInstall | updater.c:1797-1857 | in place what `Install` does, with exactly its writes |
| Controller.Pantavisor.Run | pantavisor.c:178-281 | takes exactly the run step of the transition system |
| Controller.Pantavisor.WaitForUpdate | pantavisor.c:347-376 | takes exactly the wait-for-update part of the wait step |
| Controller.Pantavisor.WaitForNetwork | pantavisor.c:378-427 | takes exactly the network part of the wait step |
| Controller.Pantavisor.Wait | pantavisor.c:429-490 | takes exactly the wait step |
| Controller.Pantavisor.Command | pantavisor.c:492-578 | takes exactly the command step |
| Controller.Pantavisor.ProcessUpdate | pantavisor.c:580-603 | takes exactly the update step |
| Controller.Pantavisor.Rollback | pantavisor.c:605-620 | takes exactly the rollback step |
| Controller.Pantavisor.RunState | pantavisor.c:703-722 | one turn of the state table is one step of the transition system, with the same writes |
| Controller.Pantavisor.Start | pantavisor.c:724-739 | each turn of the loop is one step of the transition system, from any state of memory and store, until a state without handler |
| Controller.PowerOn | pantavisor.c:724-739 | the program from power-on produces a run of the transition system, so the theorems about runs hold of it: in particular its stored `pv_rev` is the initial one or has a complete trial behind it |
| BootEnv.StoreIsAMap | bootloader.h:27-34 | for any sequence of set and unset on prefix-free keys, get returns what a map would |
| BootEnv.GetAfterOp | bootloader.h:27-34 | get after set returns the value, after unset nothing, and a key that is no prefix relative is unchanged |
| BootEnv.GetOthers | uboot.c:203-222 | dropping the entries that start with a key drops that key and leaves prefix-free others alone |
| BootEnv.OthersKeepExactly | uboot.c:203-222 | and dropping a key leaves another key alone in every store if and only if neither is the beginning of the other |
| BootEnv.UnsetTryRemovesTrying | uboot.c:203-222 | the prefix match is real: unsetting `pv_try` takes an entry of `pv_trying` with it |
| BootEnv.StoreImplementsEnv | bootloader.c:79-114 | an operation on a store, with any result, does to the pair (pv_rev, pv_try) what the update protocol's write does |
| UbootEnv.Store.UnsetEnvKey | uboot.c:171-247 | on a well-formed buffer the rewritten store holds exactly the other entries, in order, and the loop ends; a write that fails at the end leaves the file as it was and is reported as success |
| UbootEnv.Store.SetEnvKey | uboot.c:249-331 | and, for set, those followed by `key=value`, with the same unreported failure |
| UbootEnv.Store.GetEnvKey | uboot.c:125-168 | returns the value of the first entry that starts with the key, or nothing; the scan ends at the double terminator |
| UbootEnv.CopyOthers | uboot.c:200-222 | the copy loop keeps exactly the entries that do not start with the key |
| UbootEnv.EntryAt | uboot.c:140-160 | in a well-formed buffer each entry stands at the sum of the lengths before it |
| GrubEnv.Store.UnsetEnvKey | grub.c:141-187 | on a well-formed block the rewritten block holds exactly the other entries, padded with `#`; a write that fails is reported and changes nothing |
| GrubEnv.Store.SetEnvKey | grub.c:189-243 | and, for set, those of the other entries and `key=value` that end before byte 997, whenever the block has room; a write that fails is reported |
| GrubEnv.Store.GetEnvKey | grub.c:108-139 | returns the value of the first entry that starts with the key, or nothing |
| GrubEnv.OverfullIsLost | grub.c:141-187 | of a block with any number of entries all operations see exactly the visible ones: the size macro is unparenthesised, so the loops stop at 1024-26-1 |
| GrubEnv.VisibleEnds | grub.c:157-175 | with the 25 characters of the header they end before byte 997, and with one more entry they would not |
| GrubEnv.VisibleIsLongest | grub.c:141-187 | the visible entries are the longest leading part of the entries that ends before byte 997 |
| EnvStores.Replay | bootloader.h:27-34 | the two back ends answer alike, and as a map does, after any admissible sequence of operations on the same entries |
| Compare.CompareStates | state.c:295-407 | 0 exactly when the base was touched or a platform moved, else the least of 3 and the runlevels touched; on a non-zero way exactly the touched running platforms are marked; for every pair of states on which no null platform is followed |
| States.OwnerIs | parser/parser_system1.c:723-768 | the owner of an item: the folder its name starts with, or the one below `_config` |
| States.OwnerSkips | parser/parser_system1.c:723-768 | slashes before a name do not count, and a name without a folder has no owner |
| Compare.ComparableIsSafe | state.c:334-342 | where the base is untouched and no platform moved, the comparison follows no null platform if and only if every changed item with an owner has an owned twin |
| Compare.SafeExactly | state.c:374-381 | for linked states that is so if and only if every changed name under a pending platform lies under a running platform too |
| Compare.ComparePlatforms | state.c:304-332 | the platform loops: moved runlevels, deleted platforms and their marks |
| Compare.CompareChanged | state.c:334-358 | the loop over pending items: changed and new ones |
| Compare.CompareGone | state.c:360-372 | the loop over running items: vanished ones |
| Compare.ZeroExactly | state.c:295-407 | for parsed states the result is at most 0 exactly when the base changed, a platform moved, or the difference reaches runlevel 0 |
| Compare.OrderIrrelevant | state.c:295-407 | permuting the lists of either state changes neither the result nor the marks |
| Compare.SelfIsUnchanged | state.c:295-407 | a state compared with itself gives 3 and marks nothing |
| Transfer.RemovePlatforms | state.c:166-221 | drops the platforms that do not run with their items; what stays keeps its order |
| Transfer.TransferItems | state.c:230-262 | moves exactly the items of new platforms, in order |
| Transfer.TransferPlatforms | state.c:264-277 | moves exactly the platforms the running state lacks by name |
| Transfer.TransferState | state.c:280-293 | the four lists of both states afterwards |
| Transition.ItemsExact | state.c:166-293 | the running contents become the pending contents if and only if no pending item belongs to a platform the update deletes and no brand-new item to one that keeps running; nothing foreign ever stays |
| Transition.PlatformsExact | state.c:166-293 | the platform names become exactly the pending ones, each once |
| Transition.OwnershipSeparated | state.c:166-278 | every item ends in one state only, together with its platform, so freeing the pending state cannot reach the running one |
| Transition.NamesStayUnique | state.c:223-262 | item names stay unique if and only if no unowned item is adopted by an added platform |
| Transition.MergedIsLinked | parser/parser_system1.c:723-768 | and then the merged list is linked as a fresh parse would link it |
| Transition.SurvivorsAreHot | state.c:334-400 | when the comparison says APP, a platform that was not stopped owns nothing that changed or vanished |
| Containers.Stop | platforms.c:650-713 | exactly the started platforms from its runlevel up to APP stop, each once, highest runlevel first; for APP only marked ones |
| Containers.Start | platforms.c:520-566 | on success every platform from its runlevel up to APP, but for DATA, is started; lowest runlevel first, each once, up to the first failure; a started platform has its volumes, and DATA platforms are left alone |
| Containers.Mount | volumes.c:249-294 | every volume of a platform that does not run, and at ROOT of none, from its runlevel up is mounted exactly once, lowest runlevel first |
| Containers.Unmount | volumes.c:296-339 | the volumes it reaches are unmounted, each once, highest runlevel first, up to the first failure; no volume of a started platform is |
| Containers.DefaultRunlevels | platforms.c:226-259 | unconfigured platforms get PLATFORM, the first of them ROOT if nobody has it; configured ones keep theirs |
| HotUpdate.Update | pantavisor.c:580-603 | the whole path of an update: reboot exactly when the difference cuts deeper than APP; otherwise no surviving platform is stopped whatever fails, every started platform has its volumes, and on success every platform of runlevel APP runs and the running state is the pending one, in contents exactly when the update is faithful, separate from what is freed, and ready for the next update if and only if no item was adopted; it rolls back only for a failure of a node it touches |
| HotUpdate.CutsDeepExactly | state.c:295-407 | for parsed states the difference cuts deeper than APP exactly when the base or a runlevel moved or it reaches runlevel 0, 1 or 2 |
| HotUpdate.ControllerAgrees | pantavisor.c:580-603 | and the controller's update step, given the result of that comparison, reboots exactly then |
| HotUpdate.TakenIsParsed | state.c:280-293 | after a transfer the running lists are as a fresh parse leaves them if and only if no unowned item came under an added platform |
| HotUpdate.TakenIsUnmarked | state.c:280-293 | no platform of the running state carries a mark afterwards |
| HotSession.Session | pantavisor.c:205-281 | boot and any number of hot updates, with any failures: started platforms have their volumes throughout, the platforms an update spares are started before and after it whatever fails, and each successful update leaves the running lists that `HotUpdate.Update` promises over the one before; it ends early only for a reboot that an update asks for or for a failure |
| HotSession.SessionIsExact | state.c:166-293 | up to the n-th update of a session the running state always had exactly the platforms and contents of its revision if and only if every update so far was faithful between the two revisions as written |
| HotSession.Boot | pantavisor.c:254-268 | after a reboot every platform but those of runlevel DATA is started; DATA platforms are left alone, and whatever fails no platform is started without its volumes |
| HotSession.UpdateNext | pantavisor.c:580-603 | a hot update after others: the running state need not be the revision that was parsed, only stand for it |
| HotUpdate.Replace | pantavisor.c:590-600 | stop, unmount and transfer: the survivors keep running and the lists are the transferred ones |
| HotUpdate.Switch | pantavisor.c:205-281 | and with mount and start: everything from APP up runs, with its volumes |
| HotUpdate.TakenIsExact | state.c:166-293 | names and contents of the running state after the transfer, exactly when faithful |
| HotUpdate.TakenIsSeparate | updater.c:65-94 | no node is reachable from both states afterwards |
| HotUpdate.NewcomerExample | state.c:336-345 | equality does fail: a new file for an app that keeps running marks nothing and never reaches the running state |
| HotUpdate.AdoptionExample | state.c:334-342 | the comparison does follow a null platform: a pair of parsed states where an unowned item changes and the update adds its platform |
| GarbageCollector.Storage.Run | storage.c:277-327 | when it finishes, exactly these revisions stay: the six fixed names, the running, the pending and the rollback revision, and 0 if kept; and exactly the objects linked from them or needed by the pending update; cut at any removal, none of these is lost, and it ends early only when the power does; it reports the sizes of the objects that are gone |
| GarbageCollector.ProtectedExactly | storage.c:300-315 | the names the collector passes over |
| GarbageCollector.Storage.CollectRevisions | storage.c:294-318 | the revision loop, with the same revisions by name: the names that are not kept go in order while the power lasts, and it finishes exactly when it lasts for all |
| GarbageCollector.Storage.CollectObjects | storage.c:66-112 | the object loop, with the bytes it reports |
| GarbageCollector.Storage.LinkObjects | updater.c:1610-1646 | succeeds exactly when the pool has every object; paths that were there keep their links, the others link to their objects, so the revision is complete if and only if the old links were right |
| GarbageCollector.LinkCountTells | storage.c:92-93 | a pool file has more than one link exactly when some revision links to it |
| GarbageCollector.InstalledSurvives | storage.c:277-327 | an installed revision that stays protected keeps every object, even ones shared with revisions removed in the same run |
| GarbageCollector.CollectionIsStable | storage.c:277-327 | collecting twice removes nothing more |
| GarbageCollector.RollbackPointIsProtected | storage.c:310-310 | at any point of any run before the way to a reboot, the revision a boot without `pv_try` runs is protected if and only if: a `pv_rev` is stored and no commit failed in this session, or none is stored and the session was booted as revision 0; or it is the one being served or pending; or its name or the configuration keeps it |
| GarbageCollector.FactoryIsUnprotected | storage.c:310-310 | the exception is reachable: on a device that never stored `pv_rev` the first trial runs with factory revision 0 unprotected |
| GarbageCollector.TryIsProtected | storage.c:310-310 | in every run, wherever the collector may run, a stored `pv_try` is protected if and only if: the last boot or installation did not miss it; or it is what the session falls back to or the pending one; or its name or the configuration keeps it |
| GarbageCollector.LostCommitIsUnprotected | uboot.c:325-330 | a lost commit is reachable after which the collector may remove the revision that every following boot runs |
| GarbageCollector.TryIsUnprotected | updater.c:1164-1164 | and a missed `pv_try` is reachable and unprotected |
| DlList.Init | utils/list.h:26-30 | a list of its own |
| DlList.Add | utils/list.h:32-38 | inserts behind any node of a ring and keeps it a ring |
| DlList.AddFront | utils/list.h:32-38 | prepends |
| DlList.AddTail | utils/list.h:40-43 | appends |
| DlList.Del | utils/list.h:45-51 | takes any node out of its ring and clears its links |
| DlList.Empty | utils/list.h:53-56 | tells whether the list is empty |
| DlList.Len | utils/list.h:58-65 | counts the items |
| DlList.Sweep | utils/list.h:87-91 | safe iteration with deletion of any chosen nodes visits every node once, in order, and leaves the others linked in order |
| DlList.Neighbours | utils/list.h:16-19 | the links of a ring node lead to its neighbours in the ring, around the end too |
| LogPool.TakeFirst | log.c:74-85 | takes the first buffer of a list and makes it a list of its own |
| LogPool.InitCache | log.c:126-152 | empties a list and fills it with at most ten new buffers of the size |
| LogPool.Alloc | log.c:107-124 | a buffer exactly for a positive size |
| LogPool.Pool.Get | log.c:87-92 | moves the first buffer of the asked class to the held ones, or gives none and changes nothing |
| LogPool.Pool.Put | log.c:94-105 | returns a held buffer to its own size class; a second put changes nothing |
| LogPool.Pool.Fill | log.c:270-281 | both caches, leaving held buffers held |
| LogPool.Pool.Borrow | ph_logger/ph_logger.c:503-515 | whichever of two buffers a caller got and puts back, the pool is as before; it gets both exactly when both lists have one |
| LogPool.Pool.Sizes | log.c:270-281 | the buffers of one class have the configured size, those of the other twice that |
| LogPool.Pool.Lonely | log.c:98-99 | the emptiness test on a buffer tells whether it is out of the pool |
| LogPool.MoveIn | log.c:94-105 | every buffer stays in exactly one place of its size |
| LogPusher.RunConserves | ph_logger/ph_logger.c:486-743 | over any run of growth and successful calls the chunks taken are, byte for byte, what stands in the file between the first and the saved position, with blanks for NULs, no byte missing or twice, and their texts are what was sent, in order, blank lines left out |
| LogPusher.RunKeepsText | ph_logger/ph_logger.c:486-743 | of a file without NULs it is the very text |
| LogPusher.SentOne | ph_logger/ph_logger.c:568-611 | a chunk is sent as its line without the newline, or as a whole full buffer; a blank line is not sent |
| LogPusher.TruncationRestarts | ph_logger/ph_logger.c:541-550 | after the file was cut short a call begins at its start again; the position stays only if the call passes over nothing |
| LogPusher.StopsEarly | ph_logger/ph_logger.c:568-611 | the count of unread bytes falls by the running offset: of three short lines a call takes two |
| LogPusher.PushTakes | ph_logger/ph_logger.c:563-680 | one successful call consumes exactly the bytes between the old and the new position: each is the file's own, or a blank for a NUL |
| LogPusher.PushAdvances | ph_logger/ph_logger.c:583-611 | a call gets on exactly when its block has a newline or a whole buffer is unread |
| LogPusher.Drains | ph_logger/ph_logger.c:486-743 | a file that ends in a newline is sent to its end |
| LogPusher.FailureLoses | ph_logger/ph_logger.c:656-679 | a failed upload sends nothing, yet passes over the bytes up to the last blank line; a text is among them exactly when one stands before a blank line |
| LogPusher.PrefixTakes | ph_logger/ph_logger.c:584-680 | the position behind the first n chunks of a call is behind exactly their bytes, whatever n |
| LogPusher.ChunksTile | ph_logger/ph_logger.c:568-611 | lowering the count of unread bytes by the running offset never lets a call leave the block, and its chunks follow each other |
| LogPusher.ChunksAreChunks | ph_logger/ph_logger.c:568-611 | each chunk is a line with its newline or a full buffer without one |
| LogPusher.Strnchr | ph_logger/ph_logger.c:466-477 | finds the first newline of the first len bytes |
| LogPusher.TakeChunk | ph_logger/ph_logger.c:563-611 | one turn of the loop is one chunk |
| LogPusher.Cut | ph_logger/ph_logger.c:563-680 | the loop: fragments, position, and the position saved at each blank line |
| LogPusher.Bundle | ph_logger/ph_logger.c:683-724 | the array text uses the space set aside for it to the last byte |
| LogPusher.PushFromFile | ph_logger/ph_logger.c:486-743 | one whole call: saved position, answer and posted text |
| LogFrame.RoundTrip | ph_logger/ph_logger_v1.c:60-96 | decoding an encoded message returns its level, platform, source and data |
| LogFrame.Msg.Write | ph_logger/ph_logger_v1.c:106-140 | the frame, field by field, and its length, never beyond the given length; the data prefix is what the space left by the running subtraction allows |
| LogFrame.Msg.Read | ph_logger/ph_logger_v1.c:60-96 | the four parts of a frame with its terminators |
| LogFrame.InsideExactly | ph_logger/ph_logger_v1.c:106-140 | the four writes of the encoder end inside the given length, and its copy has a size, if and only if the room is not below zero, that is len >= 3 w1 + 2 w2 + w3 |
| LogFrame.SendLine | pvlogger.c:78-108 | every frame names the message's origin, and the frames' data put together are the whole line if and only if the room exceeds zero, that is len > 3 w1 + 2 w2 + w3; else nothing of it arrives |
| LogFrame.PrintField | ph_logger/ph_logger_v1.c:118-130 | a field that fits is printed whole, behind what was there |
| Decimal.RoundTrip | ph_logger/ph_logger_v1.c:70-70 | scanning finds the number that was printed, up to the first non-digit |
| StrReplace.ReplaceStr | utils/strrep.c:56-125 | leftmost non-overlapping replacement; every assert of the source holds, including the exact final length |
| StrReplace.CountMatches | utils/strrep.c:73-82 | the first pass counts the matches of the replacement |
| StrReplace.FillMatches | utils/strrep.c:104-124 | the second pass finds the same matches and fills the buffer exactly |
| StrReplace.ReplaceIsScan | utils/strrep.c:30-37 | the replacement is the one that reads the text once from the left |
| StrReplace.ReplaceBySelf | utils/strrep.c:30-37 | replacing a pattern by itself changes nothing |
| StrReplace.ExactLength | utils/strrep.c:87-97 | the computed size is the size of the result and does not go below zero |
| StrReplace.IndexOfIsFirst | utils/strrep.c:77-77 | the search finds the first occurrence, and none only if there is none |
| StrReplace.UnescapeIsReplace | utils/str.c:42-76 | the sentinel version equals the replacement for every text if and only if its code has no border |
| StrReplace.BorderLoses | utils/str.c:51-68 | for a code with a border there is a text that it loses |
| StrReplace.NewlineEscape | metadata.c:811-811 | the code that the metadata parser unescapes is of the good kind |
| StrReplace.UnescapeToAscii | utils/str.c:42-76 | the loop computes the sentinel version |
| JsonEscape.RoundTrip | utils/json.c:71-88 | a decoder for section 7 of RFC 7159 reads back what was escaped |
| JsonEscape.Injective | utils/json.c:184-217 | different inputs are escaped differently |
| JsonEscape.EscapedIsClean | utils/json.c:73-78 | no quote and no control character comes out, and a reverse solidus only at the start of a whole escape |
| JsonEscape.EscapedIsMinimal | utils/json.c:73-88 | and nothing but control characters, reverse solidus and quote is escaped, as the four hexadecimal digits of its code |
| JsonEscape.ExactLength | utils/json.c:190-191 | the worst case the source makes room for is exact |
| JsonEscape.ModifyToJson | utils/json.c:49-69 | writes the six characters of one escape |
| JsonEscape.Format | utils/json.c:184-217 | the escaped text for a positive length, nothing otherwise |
| JsonEscape.HexChar | utils/json.c:41-47 | a hexadecimal digit of the nibble's value |
| UserMeta.BetweenSyncs | metadata.c:805-820 | from one sync to the next, over any local writes and removals, the result is the cloud's map over what was written in between, whatever was there before |
| UserMeta.ExactlyCloud | metadata.c:451-471 | a sync leaves exactly the cloud's map if and only if every flagged key is one of the cloud's |
| UserMeta.SecondSync | metadata.c:805-820 | two syncs with nothing written in between leave exactly the cloud's map |
| UserMeta.Metadata.Add | metadata.c:293-334 | a map update with unique keys; 1 exactly when the value is new |
| UserMeta.Metadata.AddUsermeta | metadata.c:336-359 | adds, flags and saves; success is reported for a changed value only |
| UserMeta.Metadata.RmUsermeta | metadata.c:361-377 | removes the entry and its files; 0 exactly when it was there |
| UserMeta.Metadata.Parse | metadata.c:379-449 | adds and flags the pairs of the object, null values left out; nothing for a body without one |
| UserMeta.CloudIs | metadata.c:379-449 | the keys of an answer are those with a value that is not null, and the last value of a key counts |
| UserMeta.Metadata.Clear | metadata.c:451-471 | keeps exactly the flagged entries and clears the flags |
| UserMeta.Metadata.ParseUsermeta | metadata.c:805-820 | one sync, with the sweep even after a malformed body |
| UserMeta.Metadata.Load | metadata.c:838-867 | at boot every key with a file is there again, flagged, and agrees with it; a file is out of step afterwards exactly when its key begins with a dot |
| UserMeta.SaveAgrees | storage.c:1045-1069 | saving keeps the files of all keys in step with the list |
| UserMeta.RemoveAgrees | storage.c:1071-1094 | removing too |
| UserMeta.PathsDiffer | storage.h:33-35 | no two keys share a file |
| UserMeta.FilesOfKey | storage.c:1045-1094 | which files a key has: its own, and for a name behind its first dot that name's in the folder of the platform before it; saving writes and removing removes exactly these |
| UserMeta.NoFilesOfKey | storage.c:1045-1094 | a key that is empty, a dot or two, or has a slash names no file |
| Signature.FilterFiles | signature.c:391-406 | a pair is included if and only if an include pattern and no exclude pattern matches, whatever the flags were; covered if either matches or it was |
| Signature.PatternSelects | signature.c:350-362 | what one pattern matches: two stars everything below the root, a folder with a slash and two stars what is below that folder, any other pattern what fnmatch finds at exactly that path |
| Signature.PrintIs | signature.c:453-507 | an entry of the payload: the key in quotes, a colon, an object as its text stands and anything else in quotes |
| Signature.PayloadGrows | signature.c:453-507 | the payload is the selected entries between braces, in state order, with a comma between any two |
| Signature.IncludeFiles | signature.c:321-389 | one list of patterns |
| Signature.GetJsonFiles | signature.c:453-507 | the comma-joined print of the included pairs in state order; the tracked length puts the brace on the last comma |
| Signature.PayloadBySelection | signature.c:509-515 | the payload depends on the filter only through what it selects |
| Signature.PatternOrder | signature.c:401-406 | neither the order of the patterns nor repetitions matter |
| Signature.VerifyPvs | signature.c:774-815 | the check is asked about exactly the filter's payload |
| Signature.VerifyPairs | signature.c:817-846 | succeeds exactly when every signature entry is usable and its check accepts its payload |
| Signature.AllCovered | signature.c:848-870 | whether every pair outside `_sigs/` is covered |
| Signature.Verify | signature.c:872-896 | accepts exactly the states that satisfy the mode |
| Signature.StrictMeans | signature.c:848-870 | in strict mode a signature selects a pair outside `_sigs/` if and only if it is not the case that some signature excludes it and every one that includes it excludes it too; and then the pair stands in a text that was accepted |
| Signature.UnsignedIsAccepted | signature.c:848-870 | such a state is accepted: the configuration of an app, and one signature of nothing that excludes the app's folder |

## Left out

- HTTP, sockets, mounting, forking, the container plugin, mbedtls, fnmatch and JSON parsing: their results are inputs or parameters.
- Timers: only whether a timer has finished; the arithmetic of utils/timer.c is not modelled.
- One environment write is one step: a write torn by a power cut or cut short, a store whose read fails (U-Boot then writes back what it did not read as nothing), and the window of a store that erases its flash before writing (single-environment U-Boot), are not modelled.
- UbootEnv.Store.GetEnvKey: buffers that are not well-formed or have no room for the next entry are not covered, because the C loops then read past the entries.
- GrubEnv.Store.GetEnvKey: the `strlen` over a block without a terminator reads past it in C; the model stops at the block.
- HotUpdate.Update: multi1 states are not covered, because they are never linked to platforms or given runlevels.
- Compare.CompareStates: pairs of states that are not `Comparable`, on which the C code reads through a null platform (state.c:341 and state.c:380); `SafeExactly` and `AdoptionExample` say which.
- HotUpdate.Update: the same pairs.
- HotSession.Session: each revision settles on the one before (no name in use that gets a platform later), which is what keeps every update comparable and adopting nothing; without it an update is covered by `HotUpdate.Update` alone.
- HotSession.Boot: the retry of a failed boot and the rollback it leads to are in the update protocol, not here.
- GarbageCollector.Storage.Run: objects named `.bind` are copied, not hard-linked, and are not covered; nor are revisions removed outside the collector, by a failed installation or the factory command.
- Allocation failures, file system errors and path or integer sizes beyond their limits; `LogPool.Alloc` and the size check of `StrReplace.ReplaceStr` (utils/strrep.c:94-97) are modelled for memory that lasts and sizes that do not wrap.
- LogFrame.Msg.Write: calls whose three fields do not fit even with the running subtraction are not covered, because the space left is then negative and the C code writes without a bound; `InsideExactly` says that these are all such calls.
- LogFrame.SendLine: the same calls, reached from the line splitter.
- LogPusher.PushFromFile: a file that does not open, an empty pool (see `LogPool.Pool.Borrow`) and the level, source, platform and revision inside each JSON message are parameters or left out.
- LogPusher.RunConserves: truncation of the file is in the model of one call (`Base`) but not in the runs, which only append.
- `pvlogger_flush` (pvlogger.c:122-188): it loses a character of a line that is longer than its buffer.
- UserMeta.SaveAgrees: keys with a slash and empty keys name no file in the model; the configuration override of a written key is left out.
- Signature.Verify: the parsing of headers and certificates and the cryptographic check are one parameter each.
- utils/base64.c, progress messages, device metadata and configuration files.
