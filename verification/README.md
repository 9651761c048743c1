# Verification of wg-program-split

This project models the parts of the program whose correctness rests on more than one function: the attribution of
DNS lookups to programs on Windows, the resolver guard on Linux, the crash-consistent state of the Linux controller
and network, and the bounded structures and transformations they use. Each module is a model in the form of its
source file: concurrent protocols are state machines over single reads and writes, code that updates state in place
is imperative, and what is promised is proved for every input, every run or every reachable state.

## Modules

- `Attribution`: the hint table, as values and as a class that updates it in place.
- `EvidenceLifetimes`: how long each kind of evidence keeps a name off the direct route, over all histories.
- `QueryNames`: query names as written and as the table's keys.
- `TraceBarrier`, `OrderingBarrier`, `OrderingGaps`: event trace, sentinels, flusher and workers; then the whole
  attribution system; and runs that show which events its results cannot cover.
- `StreamLabels`: the lock-free cache of stream decisions, stamped with the sum of two counters.
- `NegativeRoles`, `NegativeRoleGaps`: the "no role" cache, and runs that show its conditions are needed.
- `Drain`: the proof that no task still runs inside a call it entered before the guard attached.
- `PolicyJournal`: policy edits across kernel, settings and journal under failures and deaths.
- `NetworkLifetime`: the owned network objects and their receipt under failures and deaths.
- `PinOrder`: staged loading and removal of the pinned guard.
- `LogRing`, `ImageCache`, `ImagePool`, `RulesetListings`, `MarkBits`, `DnsWire`, `IdentityText`, `IdentityRecovery`:
  the log queue, the image resolver, the listing cache, packet-mark allocation, response rewriting, and the identity
  record.
- `Options`, `Failures`, `Sorting`: shared datatypes and sorted lists; a fate says whether a command's effect lands and
  whether the process goes on.

## Assumptions about the environment

- Event trace: surviving events arrive in logging order, and a flush that returns has counted every earlier loss. No
  process identifier is reused between the logging of an event and its reading: `identify` opens whatever process has
  the identifier at that time and compares nothing with the event, so only then is a program of the included set
  identified as itself or not at all. The included set is fixed for the run.
- Resolver guard: counter sums stay below 2^63; the completion programs run when their calls return; roles in the
  "no role" model come from the slot map alone, and names change only by rename.
- Drain: a task runs only while it is on CPU; the scheduler counts a switch before it clears the on-CPU flag; only the
  outermost frame of a stack is a stack bottom; a scan returns every task alive throughout it, and a filtered scan
  its thread.
- Controller and network: files are replaced atomically; one manager runs at a time; nobody else changes the guard,
  the settings of an open lifetime, or the owned network objects.
- Loader: nobody else touches the pin directories; unlinking an existing pin succeeds unless the process dies.
- Ruleset: commits advance the generation, and only owner-bound tables disappear without a commit.
- Identity recovery: the text of a listed entry, a path, holds no tab, the separator the filters use.

## Where the code differs from its comments or design

- Network prefix: `disable` has no check for unrecorded live objects. After a death between the birth of the nft table
  (or, in an acquisition, the interface) and its record, a completed `disable` removes the anchors around it. The
  prefix holds at every kill point if every live table and interface is recorded when `disable` starts, and any
  completed non-empty `disable` breaks it otherwise (`NetworkLifetime.Network.Disable`,
  `NetworkLifetime.DisableAfterUnrecordedTable`). `rollback_interrupted` makes that check and needs no
  condition.
- Over-long names: the consumer drops a query event whose name as written exceeds 253 characters
  (src/native/dns-dispatcher.cpp:423-424) without evidence, quarantine or overload, before trailing dots and blanks are
  removed for the key. A selected program that writes a 253-character name with its final dot leaves nothing, and one
  unselected program's event then routes the name direct. The ordering results hold of every other event; for every
  event dropped although its name can be written in 253 characters there is a run that breaks them
  (`OrderingBarrier.DirectDecisionIsSafe`, `OrderingGaps.OverlookedEventIsMissed`,
  `OrderingGaps.OverlookedEventIsDelivered`). The table's own check of the length never applies to such an event.
- "No role" exactness: the comment at src/linux/bpf/resolver_guard.bpf.c:214-221 calls a cached "no role" exact. It is,
  if no enrolment has overtaken this inode (added the destination of a rename of it already past its hook) and no rename
  of it is between its completion and its second advance of the generation when the lookup begins
  (`NegativeRoles.CachedNoRoleIsFresh`). Both conditions are needed: an enrolment that overtakes a rename leaves a stale
  entry usable after both have returned (`NegativeRoleGaps.OvertakingEnrolmentIsMissed`), and an entry cached early in a
  rename is used once more after its release (`NegativeRoleGaps.UnsettledRenameIsMissed`). A computed "no role" needs no
  condition. A lookup begun between hold and release has a role unless it reads the held roles after the release, which
  also happens (`NegativeRoleGaps.LateHeldReadMissesRename`).
- Partial inspection: the comment at src/linux/native/bpf-loader.cpp:237-240 says an interrupted directory may lack
  only trailing pins; the code accepts any set of maps when there is no link. Every state an interruption leaves is a
  prefix, so nothing follows from the difference (`PinOrder.AcceptedPrefixes`).
- Allocation: the search for a routing priority can only ever return one, because every candidate lies below the first
  foreign priority.

## Model

| member | source | states |
|---|---|---|
| `Attribution.Hints.Sweep` | src/native/dns-attribution.h:297-305 | The in-place expiry scan removes exactly the entries whose lifetime is over, at most once per second. |
| `Attribution.Hints.Event` | src/native/dns-attribution.h:53-80 | Accepting or refusing a query event in place is the table operation the lifetime results are about; it is refused exactly for a name over-long as written or a full table without its key. |
| `Attribution.Hints.Lost` | src/native/dns-attribution.h:86-93 | After a loss report exactly the entries with tunnel evidence or a running quarantine remain, unchanged, and whatever they hold no decision for any name is direct for ten seconds. |
| `Attribution.Hints.Answered` | src/native/dns-attribution.h:167-182 | An answer records a selected tunnel exchange and finalises only the generation it was decided on. |
| `Attribution.Hints.RouteNow` | src/native/dns-attribution.h:226-291 | The in-place decision is the table operation the lifetime results are about, in its new table, its route and its reuse flag. |
| `Attribution.Hints.TakeNow` | src/native/dns-attribution.h:132-146 | Under overload nothing is routed and nothing changes. Otherwise a direct route implies permission, no block and a live entry without tunnel evidence or quarantine; unclaimed live tunnel evidence always wins; other names lose only expired entries. |
| `EvidenceLifetimes.ApplyMoves` | src/native/dns-attribution.h:53-93 | Every operation acts on each name by one of five moves, and an entry vanishes only at the end of its lifetime or, without evidence to keep, at a loss. |
| `EvidenceLifetimes.AfterKeepsSound` | src/native/dns-attribution.h:53-93 | In every history, selected and recently answered evidence is tunnel evidence, and no quarantine or entry outlasts its ten seconds or its reuse window. |
| `EvidenceLifetimes.UnidentifiedEventQuarantines` | src/native/dns-attribution.h:152-182 | Once an unidentified event is accepted at t, no events, completions, losses, retirements or expiries let a decision be direct, or a direct answer be delivered, before t plus ten seconds. |
| `EvidenceLifetimes.SelectedExchangeShadowsDirect` | src/native/dns-attribution.h:167-291 | For every history: after a selected tunnel exchange is recorded at c, each decision before c plus the reuse window goes to the tunnel and no direct answer is delivered. |
| `EvidenceLifetimes.DirectAfterLossRestsOnNewEvent` | src/native/dns-attribution.h:66-93 | For every history and continuation: a direct decision after a loss report comes at least ten seconds after it and rests on a direct event accepted after it. |
| `EvidenceLifetimes.FreshEventDecides` | src/native/dns-attribution.h:226-274 | With no live entry and no block, one event alone decides for its whole lifetime: direct if unselected, tunnel if selected, no route if unidentified. |
| `QueryNames.SpellingIsShortest` | src/native/dns-dispatcher.cpp:89-101 | No way to write a name is shorter than its spelling: its normal form, with a dot if that ends in a blank. |
| `QueryNames.SpellingNormalises` | src/native/dns-dispatcher.cpp:89-101 | A name's spelling is a way to write it. |
| `TraceBarrier.DoKeepsInv` | src/native/dns-dispatcher.cpp:331-367 | Every step of programs, consumer, flusher and workers keeps the ordering of log, sentinels, flushes and sequence numbers. |
| `TraceBarrier.BarrierCovers` | src/native/dns-attribution.h:204-223 | When a worker wakes, each record logged before its number was assigned has been handled or reported lost, even if a later-numbered sentinel was read first. |
| `OrderingBarrier.GuardStays` | src/native/dns-attribution.h:132-182 | What keeps a name off the direct route after an event outlives every other step of the system. |
| `OrderingBarrier.RunKeepsInv` | src/native/dns-dispatcher.cpp:406-432 | The invariant of the whole system holds in every run, including the consumer's silent drop of query events that are malformed or over-long as written. |
| `OrderingBarrier.DirectDecisionIsSafe` | src/native/dns-attribution.h:132-146 | In every interleaving, a barrier decision is direct only if each selected event for the name, logged before the barrier number was assigned, under ten seconds ago and not overlooked, was claimed by a tunnel exchange that has ended; the event may have been delivered, lost, unresolvable or refused. An event is overlooked if the consumer drops it although its name can be written in 253 characters. |
| `OrderingBarrier.DeliveredAnswerIsSafe` | src/native/dns-dispatcher.cpp:662-741 | The same for a direct answer that is delivered, for every event logged before the answer's own barrier number. |
| `OrderingGaps.OverlookedEventIsMissed` | src/native/dns-dispatcher.cpp:416-425 | For every overlooked event of a selected program there is a run in which a worker behind a barrier that covers it decides direct, with no tunnel exchange ended: the condition is exact. |
| `OrderingGaps.OverlookedEventIsDelivered` | src/native/dns-dispatcher.cpp:416-425 | The same for a delivered direct answer. |
| `OrderingGaps.FinalDotIsOverlooked` | src/native/dns-dispatcher.cpp:423-424 | Every name of 253 characters in normal form, written with its final dot, is overlooked. |
| `StreamLabels.HitIsFresh` | src/linux/bpf/resolver_guard.bpf.c:280-320 | Equal stamps are equal counter sums, so a matching word was resolved on everything that had returned when the operation began, although the counters are read separately. |
| `StreamLabels.DoKeepsInv` | src/linux/bpf/resolver_guard.bpf.c:396-434 | Every single read, write and effect of any number of threads keeps the invariant. |
| `StreamLabels.RunKeepsInv` | src/linux/bpf/resolver_guard.bpf.c:484-556 | The invariant holds in every run. |
| `StreamLabels.CachedAllowIsFresh` | src/linux/bpf/resolver_guard.bpf.c:349-365 | In every run, an operation allowed from a cached safe word rests on a resolution of an end of this very stream that began after every bind, rename, owner change or enrolment that had returned; if none was in progress, each end it read was unprotected at some instant since. |
| `NegativeRoles.EntersByTracked` | src/linux/bpf/resolver_guard.bpf.c:512-534 | An inode that no enrolment has overtaken enters a slot only by the completion of a tracked rename or enrolment that affects it and was running until then. |
| `NegativeRoles.HitIsFresh` | src/linux/bpf/resolver_guard.bpf.c:213-243 | An entry with the current stamp was computed after every tracked operation that had returned. |
| `NegativeRoles.DoKeepsInv` | src/linux/bpf/resolver_guard.bpf.c:326-348 | Every access of lookups, renames and enrolments keeps the invariant. |
| `NegativeRoles.RunKeepsInv` | src/linux/bpf/resolver_guard.bpf.c:180-243 | The invariant holds in every run. |
| `NegativeRoles.CachedNoRoleIsFresh` | src/linux/bpf/resolver_guard.bpf.c:213-227 | In every run, a cached "no role" was computed after every slot-entering rename and enrolment that had returned when the lookup began; if no enrolment has overtaken a rename of this inode, and none was then between its completion and its second advance, the inode was outside every slot at some instant of the lookup. |
| `NegativeRoles.ComputedNoRoleIsExact` | src/linux/bpf/resolver_guard.bpf.c:240-243 | In every run, a computed "no role" is exact without any condition: the inode was outside every slot at some instant of the lookup. |
| `NegativeRoles.HeldInodeHasRole` | src/linux/bpf/resolver_guard.bpf.c:187-192 | In every run, a lookup begun between hold and release answers "no role" only once that hold has ended and only if it read the held roles after that; even then the inode was outside every slot at some instant, except for a cached answer when the inode was overtaken or the rename had completed before the lookup began. |
| `NegativeRoleGaps.OvertakingEnrolmentIsMissed` | src/linux/bpf/resolver_guard.bpf.c:512-534 | A concrete run in which an enrolment of a destination already past its hook leaves a stale "no role": the condition on overtaken inodes is needed. |
| `NegativeRoleGaps.LateHeldReadMissesRename` | src/linux/bpf/resolver_guard.bpf.c:228-243 | A concrete run in which a lookup begun between hold and release gets "no role" because it reads the held roles after the release: that condition is needed. |
| `NegativeRoleGaps.UnsettledRenameIsMissed` | src/linux/bpf/resolver_guard.bpf.c:521-534 | A concrete run in which a lookup of an inode that is in a slot throughout hits a stale "no role", because a rename of it has released its hold and not yet advanced the generation again: that condition is needed too. |
| `Drain.StackStood` | src/linux/bpf/resolver_guard.bpf.c:565-599 | Off CPU at both reads with an equal switch count, a task's stack did not change anywhere between the two flag reads. |
| `Drain.ClearIsProof` | src/linux/native/drain.h:72-83 | A sample classified clear shows its task outside every early traced call at some instant of the sample. |
| `Drain.StaysOutside` | src/linux/native/drain.h:158-162 | A task outside early calls after attachment stays outside. |
| `Drain.NewcomerIsOutside` | src/linux/native/drain.h:158-162 | A task that appears after attachment is outside. |
| `Drain.FirstPending` | src/linux/native/drain.h:173-175 | The pending set after the first scan is the tasks with a sample that is not clear. |
| `Drain.LastVerdict` | src/linux/native/drain.h:184-186 | Whether a task remains is decided by its last sample in the scan. |
| `Drain.FilteredRound` | src/linux/native/drain.h:180-189 | A round of filtered scans keeps exactly the pending tasks still shown unclear, or reports the deadline. |
| `Drain.FullRound` | src/linux/native/drain.h:191-197 | A full rescan keeps exactly the pending tasks still shown unclear. |
| `Drain.DrainTasks` | src/linux/native/drain.h:163-205 | The drain is unproven exactly without both traced functions or any stack bottom, and otherwise settles or meets the deadline as the rounds say. |
| `Drain.SettledDropsAll` | src/linux/native/drain.h:176-198 | If the drain settles, some round dropped each task it had pending. |
| `Drain.DroppingAllSettles` | src/linux/native/drain.h:176-198 | Conversely, with no scan interrupted, it settles once each pending task was dropped. |
| `Drain.SettledMeansDrained` | src/linux/native/drain.h:163-205 | For every history of all tasks: once the drain settles, no task is ever again inside a traced call entered before the completion programs attached. |
| `PolicyJournal.Controller.Block` | src/linux/wg_program_split/controller.py:190-194 | Blocking changes only the ready state, and succeeds only on this lifetime's guard. |
| `PolicyJournal.Controller.RecoverKernel` | src/linux/wg_program_split/controller.py:318-334 | The first half of recovery leaves the guard blocked with the new policy, or the ordered combination intact. |
| `PolicyJournal.Controller.RecoverEdit` | src/linux/wg_program_split/controller.py:318-342 | Recovery carries a pending edit through kernel, settings and journal; killed or failing anywhere it leaves one of the ordered combinations, and undisturbed it ends with all three new. |
| `PolicyJournal.Controller.ClaimBirth` | src/linux/wg_program_split/controller.py:272-300 | A published guard is adopted only with its birth record and only if blocked with the journaled policy. |
| `PolicyJournal.Controller.OpenLifetime` | src/linux/wg_program_split/controller.py:353-368 | A new lifetime starts from the settings, with generation one and nothing pending. |
| `PolicyJournal.Controller.LoadAndClaim` | src/linux/wg_program_split/controller.py:373-378 | A lifetime without a guard gets one that holds its policy and is blocked. |
| `PolicyJournal.Controller.Finish` | src/linux/wg_program_split/controller.py:379-388 | The guard command ends blocked, synchronised and with nothing pending. |
| `PolicyJournal.Controller.Bring` | src/linux/wg_program_split/controller.py:353-388 | Opening, loading and finishing together end blocked and synchronised, with a pending edit completed. |
| `PolicyJournal.Controller.GuardUp` | src/linux/wg_program_split/controller.py:344-388 | The guard command ends blocked, synchronised and with nothing pending, and completes a pending edit; undisturbed it succeeds from every kill point. |
| `PolicyJournal.Controller.Degrade` | src/linux/wg_program_split/controller.py:390-396 | Degrading saves the journal in memory with only its phase changed; undisturbed it succeeds and the guard is not ready. |
| `PolicyJournal.Controller.Prove` | src/linux/wg_program_split/controller.py:406-447 | Gathering readiness evidence changes nothing but the ready state, and only towards blocked. |
| `PolicyJournal.Controller.MakeReady` | src/linux/wg_program_split/controller.py:406-462 | The guard becomes ready only while kernel, settings and journal agree and nothing is pending. |
| `PolicyJournal.Controller.Rewind` | src/linux/wg_program_split/controller.py:472-490 | Rolling back an interrupted acquisition keeps journal and receipt in step. |
| `PolicyJournal.Controller.Connect` | src/linux/wg_program_split/controller.py:468-502 | The network part of an activation ends ready and synchronised, or leaves a consistent state. |
| `PolicyJournal.Controller.Activate` | src/linux/wg_program_split/controller.py:464-514 | Activation succeeds only ready and synchronised; killed anywhere it keeps the invariant, and undisturbed it succeeds unless a disable is unfinished. |
| `PolicyJournal.Controller.Check` | src/linux/wg_program_split/controller.py:567-592 | A closed lifetime is left alone; an open one ends ready with kernel, settings and journal equal, or degraded with nothing else of its journal changed, and degraded whenever settings differ, an edit is pending or no network was started. Undisturbed it succeeds, ready exactly when none of these holds and blocked otherwise. |
| `PolicyJournal.Controller.Commit` | src/linux/wg_program_split/controller.py:624-645 | An edit is journaled before any effect; on success kernel, settings and journal hold it and the generation advanced by one. |
| `PolicyJournal.Controller.Change` | src/linux/wg_program_split/controller.py:594-645 | After a successful edit the path is enrolled exactly if it was added, everywhere; undisturbed, an open lifetime's edit succeeds. |
| `PolicyJournal.Controller.Amend` | src/linux/wg_program_split/controller.py:618-645 | An edit already in force changes nothing; otherwise it is committed. |
| `PolicyJournal.Controller.KeepReady` | src/linux/wg_program_split/controller.py:600-617 | A change already in force leaves the policy as it is. |
| `PolicyJournal.Controller.Tidy` | src/linux/wg_program_split/controller.py:666-684 | Before closing, a pending edit is completed and an unclaimed guard adopted. |
| `PolicyJournal.Controller.StartClosing` | src/linux/wg_program_split/controller.py:685-695 | The guard is blocked before the closing phase is journaled. |
| `PolicyJournal.Controller.DiscardGuard` | src/linux/native/pin-removal.h:6-22 | Pins are removed one by one; interrupted it leaves the guard or a remnant, undisturbed nothing. |
| `PolicyJournal.Controller.Close` | src/linux/wg_program_split/controller.py:696-718 | The guard changes only after the receipt is gone and the journal only after every pin is gone, also when an earlier removal stopped among the pins; undisturbed it completes from there. |
| `PolicyJournal.Controller.Disable` | src/linux/wg_program_split/controller.py:666-721 | A successful disable leaves no guard and no receipt; undisturbed it succeeds exactly unless an open lifetime never had a guard. |
| `PolicyJournal.Controller.Run` | src/linux/wg_program_split/controller.py:594-645 | In every run of commands, killed anywhere, kernel, settings and journal form an ordered combination, and a ready guard means all three are equal. |
| `PolicyJournal.Controller.Recover` | src/linux/wg_program_split/controller.py:344-388 | From every pending combination the next undisturbed guard command ends with all three equal to the new policy. |
| `NetworkLifetime.Network.Acquire` | src/linux/wg_program_split/network.py:458-465 | A birth and its record: the record is never written without the birth. |
| `NetworkLifetime.Network.InstallInterface` | src/linux/wg_program_split/network.py:526-538 | The interface is recorded at birth as provisional and as finished only when configured and up; the anchors are untouched. |
| `NetworkLifetime.Network.AcquireRouting` | src/linux/wg_program_split/network.py:540-558 | An acquisition starts from nothing live and an empty receipt. |
| `NetworkLifetime.Network.Prepare` | src/linux/wg_program_split/network.py:540-571 | Killed at any command the live objects are a prefix; success is a healthy network. |
| `NetworkLifetime.Network.RemoveTunnel` | src/linux/wg_program_split/network.py:865-952 | Releasing the tunnel touches no anchor and never forgets a live interface. |
| `NetworkLifetime.Network.RemoveTable` | src/linux/wg_program_split/network.py:865-952 | Releasing the table keeps the prefix if table and interface are recorded. |
| `NetworkLifetime.Network.RemoveRouting` | src/linux/wg_program_split/network.py:865-952 | Releasing rule and fallback keeps the prefix once the table is gone. |
| `NetworkLifetime.Network.Disable` | src/linux/wg_program_split/network.py:924-952 | Killed anywhere, a disable keeps the live objects a prefix if every live table and interface is recorded; otherwise a completed one breaks it. Complete, it leaves nothing live. |
| `NetworkLifetime.Network.RollbackInterrupted` | src/linux/wg_program_split/network.py:630-654 | A rollback keeps the prefix unconditionally, on success leaves nothing live, and undisturbed succeeds when everything live is recorded and nothing is suspicious. |
| `NetworkLifetime.Network.ClearLeftovers` | src/linux/wg_program_split/network.py:681-718 | A half-configured replacement is deleted, anchors untouched. |
| `NetworkLifetime.Network.Replace` | src/linux/wg_program_split/network.py:729-742 | Fences precede births: a death leaves a resumable state or an unrecorded replacement that is later refused. |
| `NetworkLifetime.Network.RepairMissing` | src/linux/wg_program_split/network.py:669-742 | Repair never touches an anchor, keeps the prefix, ends healthy from every resumable state, and refuses an unrecorded replacement unchanged. |
| `NetworkLifetime.Network.DropTunnel` | src/linux/wg_program_split/network.py:783-797 | Dropping the old tunnel keeps its records and the anchors. |
| `NetworkLifetime.Network.SwitchPeer` | src/linux/wg_program_split/network.py:756-826 | A switch never touches an anchor, keeps the prefix, succeeds only healthy on its target, stays resumable or refusable at every death, and completes undisturbed. |
| `NetworkLifetime.Network.Invoke` | src/linux/wg_program_split/network.py:540-952 | One command of a new process: all but disable keep the prefix, and a completed non-empty disable keeps it exactly if every live table and interface was recorded; repair and switch keep the anchors. |
| `NetworkLifetime.Network.Run` | src/linux/wg_program_split/network.py:540-952 | In every run in which each disable starts with every live table and interface recorded, the live objects form a prefix at every kill point. |
| `NetworkLifetime.DisableAfterUnrecordedTable` | src/linux/wg_program_split/network.py:924-952 | Without that condition the prefix fails: a new network, an acquisition killed between the table's birth and its record, then a disable. |
| `NetworkLifetime.Network.SwitchAgain` | src/linux/wg_program_split/network.py:756-804 | A switch killed anywhere and run again completes on its target, or refuses when a replacement was born unrecorded. |
| `PinOrder.CachesHaveInvalidators` | src/linux/native/pin-set.h:22-41 | A prefix of the pin order holds a caching program only with every invalidator and every map. |
| `PinOrder.Inspect` | src/linux/native/bpf-loader.cpp:241-299 | Partial inspection accepts exactly known entries with links in pin order and no link without every map, and counts the links. |
| `PinOrder.InspectFull` | src/linux/native/bpf-loader.cpp:241-299 | Full inspection accepts exactly a directory with every map and every link. |
| `PinOrder.PrefixIsAccepted` | src/linux/native/bpf-loader.cpp:237-241 | Every prefix is accepted. |
| `PinOrder.AcceptedIsNotAlwaysPrefix` | src/linux/native/bpf-loader.cpp:237-241 | A directory without links that lacks a leading map is accepted too, against the comment. |
| `PinOrder.AcceptedPrefixes` | src/linux/native/bpf-loader.cpp:237-241 | Exactly when an accepted directory is a prefix. |
| `PinOrder.Loader.Pin` | src/linux/native/bpf-loader.cpp:720-735 | Pinning killed at any step leaves a prefix; other directories do not change. |
| `PinOrder.Loader.Unpin` | src/linux/native/pin-removal.h:6-22 | Removal killed at any step leaves a prefix; other directories do not change. |
| `PinOrder.Loader.CoveredGeneration` | src/linux/native/bpf-loader.cpp:585-595 | The generation chosen for removal protects nothing that the other does not; none is chosen exactly if neither covers the other. |
| `PinOrder.Loader.MakeRoom` | src/linux/native/bpf-loader.cpp:670-693 | Freeing a staging name keeps everything protected that was. |
| `PinOrder.Loader.Stage` | src/linux/native/bpf-loader.cpp:720-748 | A failed attempt removes only itself. |
| `PinOrder.Loader.LoadGuard` | src/linux/native/bpf-loader.cpp:651-754 | Killed or failing anywhere, whatever an interrupted generation protected stays protected unless a complete replacement is published; directories stay prefixes; undisturbed, with a staging name free, it publishes the policy. |
| `PinOrder.Loader.SettleGuard` | src/linux/native/bpf-loader.cpp:634-649 | The published guard is inspected in full and never touched; anything else is detached only beside a published guard with every map and link. |
| `PinOrder.Loader.Invoke` | src/linux/native/bpf-loader.cpp:917-985 | Loading and settling keep everything protected that was, unless a complete guard is published; a removal touches only the owned directory. |
| `PinOrder.Loader.Run` | src/linux/native/bpf-loader.cpp:546-754 | In every run of loads, settlings and removals, each directory is a prefix, is accepted by the next inspection and pins no cache without its invalidators; between any two removals whatever a generation protected stays protected, or a complete guard is published. |
| `LogRing.Ring.Push` | src/native/async-log.h:58-65 | The ring appends in order, exactly when a slot and the bytes are free. |
| `LogRing.Ring.Pop` | src/native/async-log.h:103-113 | The ring takes the oldest message out; its byte count is that of the queue. |
| `LogRing.AsyncLog.Write` | src/native/async-log.h:51-72 | A message is accepted exactly if accepting, small enough, and within both bounds; otherwise it is counted as dropped. |
| `LogRing.AsyncLog.Signal` | src/native/async-log.h:68-70 | A signal keeps the invariants. |
| `LogRing.AsyncLog.Wake` | src/native/async-log.h:98 | Consuming the signal leaves nothing unattended. |
| `LogRing.AsyncLog.Take` | src/native/async-log.h:100-113 | Taking a message out keeps the stream in order. |
| `LogRing.AsyncLog.Count` | src/native/async-log.h:114 | Reading the drop count keeps the invariants. |
| `LogRing.AsyncLog.Fail` | src/native/async-log.h:115-128 | A failing sink ends the writer and acceptance; the message in hand is lost. |
| `LogRing.AsyncLog.Report` | src/native/async-log.h:115-118 | The numbers reported add up to the drops read, unless the sink fails, which announces nothing. |
| `LogRing.AsyncLog.Deliver` | src/native/async-log.h:119-123 | The message in hand is delivered next, or lost if the sink fails; a writer that found nothing sleeps or ends. |
| `LogRing.AsyncLog.Run` | src/native/async-log.h:51-128 | In every interleaving, also after the writer has ended, the messages delivered, the one in hand or lost, and those queued are the accepted ones in order; one is lost exactly if the sink failed while it was in hand; reported drops never exceed drops, and a sleeping writer has a signal set or coming for anything left. |
| `ImageCache.Cache.Evict` | src/native/dns-image-resolver.h:188 | A full cache gives up exactly its least recently used entry. |
| `ImageCache.Cache.Insert` | src/native/dns-image-resolver.h:187-194 | List and map stay in bijection within 2048; the new key is the most recent. |
| `ImageCache.Cache.Lookup` | src/native/dns-image-resolver.h:173-183 | A hit is the stored entry and becomes the most recent; an expired entry is dropped. |
| `ImagePool.SomethingQueued` | src/native/dns-image-resolver.h:203-210 | A worker that took a semaphore count always finds a queued slot. |
| `ImagePool.PermitsFit` | src/native/dns-image-resolver.h:103-104 | The semaphore never exceeds its maximum. |
| `ImagePool.Stuck` | src/native/dns-image-resolver.h:90-95 | Whether every worker is overdue, counted over the slots. |
| `ImagePool.Pool.Acquire` | src/native/dns-image-resolver.h:203 | Taking a count keeps every invariant of the pool. |
| `ImagePool.Pool.Pick` | src/native/dns-image-resolver.h:204-213 | The worker starts the oldest queued slot. |
| `ImagePool.Pool.Resolve` | src/native/dns-image-resolver.h:214-216 | The path learned is recorded for exactly the handle the worker's slot holds. |
| `ImagePool.Pool.Close` | src/native/dns-image-resolver.h:217 | The handle the worker's slot holds is the one closed; it was open and had not been closed before. |
| `ImagePool.Pool.Complete` | src/native/dns-image-resolver.h:218-224 | Leaving the path keeps every invariant of the pool. |
| `ImagePool.Pool.Harvest` | src/native/dns-image-resolver.h:184-197 | Every finished slot is moved to the cache and emptied. |
| `ImagePool.Pool.OpenProcess` | src/native/dns-image-resolver.h:63-73 | The consumer owns each handle it opens. |
| `ImagePool.Pool.CloseOwned` | src/native/dns-image-resolver.h:78-82 | A handle in hand is closed once; it had not been closed before. |
| `ImagePool.Pool.Lookup` | src/native/dns-image-resolver.h:82-83 | A path found was resolved from a handle submitted under the same key, and the handle in hand is closed exactly on a hit. |
| `ImagePool.Pool.Find` | src/native/dns-image-resolver.h:88-90 | The slot of a key, if it has one. |
| `ImagePool.Pool.Room` | src/native/dns-image-resolver.h:91-98 | No room exactly if every worker is overdue or no slot is empty. |
| `ImagePool.Pool.SubmitOrJoin` | src/native/dns-image-resolver.h:77-110 | The handle in hand enters a slot exactly if its key has none and there is room, and is closed otherwise; it is turned away exactly without a slot of its key and without room. |
| `ImagePool.Pool.Destroy` | src/native/dns-image-resolver.h:138-155 | After the workers left, each handle ever opened has been closed exactly once. |
| `ImagePool.Pool.Run` | src/native/dns-image-resolver.h:77-227 | In every interleaving of the consumer and four workers all invariants hold, and each handle opened is the consumer's, or open in a slot, or has been closed exactly once. |
| `RulesetListings.HistoryIsLater` | src/linux/wg_program_split/inventory.py:77-87 | Any history of commits and silent deletions relates earlier and later rulesets of one generation. |
| `RulesetListings.OwnerFreeIsFixed` | src/linux/wg_program_split/inventory.py:77-87 | Without owner-bound tables, an equal generation means an equal ruleset. |
| `RulesetListings.Listings.List` | src/linux/wg_program_split/inventory.py:94-117 | Each answer is what the tool would print at some instant of the call; the tool is skipped exactly on an owner-free entry of the generation read. |
| `RulesetListings.Listings.Keep` | src/linux/wg_program_split/inventory.py:106-117 | What is kept stays exact as long as its generation is current. |
| `RulesetListings.Listings.Run` | src/linux/wg_program_split/inventory.py:71-117 | The same for every run of calls. |
| `MarkBits.AllocateBeside` | src/linux/wg_program_split/network.py:100-170 | Inventory and allocation composed: refused exactly if a rule is refused or something is exhausted, and otherwise no sequence of the inventoried rules changes the allocated bits of any packet. |
| `MarkBits.RuleStaysInBits` | src/linux/wg_program_split/inventory.py:322-345 | A rule changes no packet-mark bit outside the bits computed for it, for every packet and connection mark. |
| `MarkBits.Inventory` | src/linux/wg_program_split/inventory.py:348-376 | The accumulated bits are exactly those of the rules; one unsupported rule refuses all. |
| `MarkBits.FreeBitsStay` | src/linux/wg_program_split/inventory.py:467-504 | No sequence of inventoried rules changes a bit outside the accumulated ones. |
| `MarkBits.FirstForeign` | src/linux/wg_program_split/network.py:163 | The lowest non-zero priority in use. |
| `MarkBits.ChoosePriority` | src/linux/wg_program_split/network.py:163-164 | The only priority ever chosen is one, and it is refused exactly if taken. |
| `MarkBits.ListFree` | src/linux/wg_program_split/network.py:159 | The free bits, ascending and complete. |
| `MarkBits.ChooseBits` | src/linux/wg_program_split/network.py:159-162 | The preferred pair if free, otherwise the two lowest free bits; refused exactly without two. |
| `MarkBits.NegationKeepsLowest` | src/linux/wg_program_split/network.py:169 | For every integer with a lowest one bit, that bit is the only one it shares with its negation. |
| `MarkBits.LowestBitIsMark` | src/linux/wg_program_split/network.py:169-170 | On the integer of an allocated pair, the mask met with its negation is the lower bit and the mask without it the higher. |
| `MarkBits.Allocate` | src/linux/wg_program_split/network.py:158-170 | Allocation refuses exactly when something is exhausted and otherwise passes its own validator with nothing in use, the mark below the outer mark. |
| `MarkBits.AllocatedBitsStay` | src/linux/wg_program_split/network.py:38-45 | Whatever inventoried rules do to a packet, the allocated bits keep their value. |
| `DnsWire.SkipName` | src/native/dns-wire.h:45-58 | The loop finds the end of a name, or fails, as the name grammar says. |
| `DnsWire.SkipQuestions` | src/native/dns-wire.h:60-68 | The loop finds the first record. |
| `DnsWire.ZeroRecord` | src/native/dns-wire.h:69-78 | One record is rewritten and skipped although earlier bytes were already changed. |
| `DnsWire.ZeroResponseTtls` | src/native/dns-wire.h:60-80 | In place, it succeeds exactly on well-formed responses and zeroes the TTLs before the first malformed record. |
| `DnsWire.RewriteTouchesOnlyTtls` | src/native/dns-wire.h:69-78 | Of any byte string, only TTL bytes of records that are not OPT change. |
| `DnsWire.RewriteIsExact` | src/native/dns-wire.h:69-78 | Of a well-formed response each byte becomes zero exactly if it lies in such a TTL. |
| `DnsWire.RewriteKeepsRecords` | src/native/dns-wire.h:60-80 | Record boundaries are unchanged and a second call changes nothing. |
| `IdentityText.HexReads` | src/native/wfp-probe.cpp:231-240 | Hexadecimal text reads back and holds no separator. |
| `IdentityText.RowReads` | src/native/wfp-probe-identity.h:82-88 | A printed row reads back. |
| `IdentityText.SerializeIdentities` | src/native/wfp-probe-identity.h:74-91 | The printing loops give the record text. |
| `IdentityText.ParseIdentities` | src/native/wfp-probe-identity.h:94-127 | The parsing loops read the record text, a malformed one as empty. |
| `IdentityText.ParseUndoesSerialize` | src/native/wfp-probe-identity.h:74-127 | Parsing undoes printing for every record with non-empty fields free of tabs and newlines, up to entries without identifiers. |
| `IdentityRecovery.Collector.Keep` | src/native/wfp-probe-identity.h:158-164 | An identifier is kept once, under the first path it came with. |
| `IdentityRecovery.Identify` | src/native/wfp-probe-identity.h:155-188 | Recovering an unresolved entry gathers the filters and the record and arranges them in order. |
| `IdentityRecovery.NothingIsLost` | src/native/wfp-probe-identity.h:150-154 | Every identifier the entry's filters or its record held is in the identity recovered from them. |
| `IdentityRecovery.NothingIsInvented` | src/native/wfp-probe-identity.h:150-154 | Every attribution in the recovered identity was held by a filter or the record, or its identifier was held without a path. |
| `IdentityRecovery.ArrangementIsFixed` | src/native/wfp-probe-identity.h:155-188 | Gathering an arranged identity's own attributions, in any order and any number of times, arranges it again. |
| `IdentityRecovery.Produce` | src/native/wfp-probe.cpp:528-549 | The loops produce one filter for each identifier of each path. |
| `IdentityRecovery.FiltersHoldIdentity` | src/native/wfp-probe.cpp:385-403 | Read back, the filters an identity produces hold exactly its attributions. |
| `IdentityRecovery.RecoveryIsFixed` | src/native/wfp-probe-identity.h:150-188 | From the filters a recovered identity produces, read back in any order among those of other entries, with its record or without, the same identity is recovered. |
| `IdentityRecovery.RecoveryIsFixedThroughText` | src/native/wfp-probe-identity.h:74-188 | The same with the record printed and parsed in between. |
| `Sorting.AscendingUnique` | src/native/wfp-probe-identity.h:155-188 | An ascending list is determined by its elements, so what is sorted does not depend on the order of its source. |

## Left out

- Windows, WFP, ETW, libbpf, netlink, nft, ip and wg calls: foreign code, modelled as environment steps.
- Sockets, pipes, service control, installer, tray, command line and settings validation: dispatch and field checks, with no state that the modelled protocols share.
- Peer failover in the controller: `NetworkLifetime` models the switch; the journal's rotation counters and back-off times are not modelled, so a journal pool has one peer.
- The journal's compare-and-swap identities: under the state lock a stale identity only turns a save into a refusal.
- `cancel_peer_change`: it binds like a switch and then disables.
- The temporary private WireGuard configuration and its sweep: modelled as commands without effect on the live objects.
- The earlier build's smaller pin set in `inspect_generation`, and map contents other than the policy.
- Built-in parent, owner and ancestor name rules and hard links in the "no role" model: outside its slot-map argument.
- The wait budget of the image resolver: it bounds waiting, not results; a handle whose key already has a slot is closed before that wait here and after it in the code, and the order of the consumer's own steps is freer in the model than in the code.
- Parsing of nft JSON and iptables text, conntrack zone scans and rule comparisons: the mark results start from the recognised forms.
- Wide and UTF-8 conversion, case folding beyond the "C" locale and path resolution: paths and identifiers are abstract values or strings.
- Hash maps, lists with iterators and vectors are value-typed fields here, so aliasing and iterator validity are not modelled.
- Time limits of the drain, the barrier and the watch loop: a round, a flush or a run may end at any point instead.
