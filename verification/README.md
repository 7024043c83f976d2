# Ground Control: verified models of its coordination cores

These Dafny modules model the parts of Ground Control whose correctness rests on state kept over
many steps, and prove what those parts promise. Each module follows one component.

- **CPU dispatcher** (`Records`, `TextOrder`, `Admission`, `Ledger`, `DispatcherRuns`,
  `DispatcherTurns`, `DispatcherDemands`): the ledger document and its validation, the admission walk,
  the ledger operations of one process, every interleaving of processes that enqueue, poll, fork, die
  and settle over one directory, whose turn it is in them, and that the ledger says what was asked.
  Each operation under the ledger's lock is one atomic step.
- **Dirty-work migration** (`Values`, `MigrationPacket`, `Workspace`, `PacketRestore`, `Publication`,
  `PublishedPackets`): the packet format, the layered reconstruction and its verifier, what an
  accepted packet restores, the publication protocol as a list of file operations that may stop or
  tear anywhere, and the way from packet to published result.
- **Sandbox lifecycle and task sessions** (`Allocation`, `AllocationSlots`, `SandboxRuns`,
  `SandboxCallers`, `Base64`, `TaskFrame`, `TaskSources`): the allocator with its rollbacks and as a
  counter of slots, all processes of a host interleaved under the two locks, who changes what in them,
  and the environment frame from declaration and provider files to the guest.
- **Asynchronous jobs** (`AsyncJobs`, `AsyncJobRuns`, `AsyncJobStories`): the registry, every
  interleaving of calls, completion callbacks and wait timers, and every answer by what the callers
  were told before.
- **CI watcher** (`CiWatcher`, `CiVerdicts`, `CiBlame`): the watch as a function of what GitHub and the
  clock answer round by round, the soundness of its success, its termination, and which run it names
  for what.
- **Bounded log and cycle markers** (`EventLog`, `CycleMarker`, `QuotedMarkers`): trimming against the
  longest-suffix specification, the marker printer and scanner behind the review cap, and what a
  quoted marker does to it.

Code that updates state appears as classes or loops whose contracts tie the new state to a
specification function of the old one; lemmas prove the properties of those functions over all
inputs and all runs. Outside answers (clock readings, probes, command and audit outcomes, library
encodings) are parameters.

Statements one might expect that do not hold of the code, each with its exact condition and a witness:

- recovery after a crash returns a result only without another migration's result
  (`ConvergesIffNoForeignResult`, `ForeignResultBlocksRecovery`), and ends on the disk of an
  uncrashed restore only without any result (`DiskConvergesIffNoResult`, `OwnResultHidesTheHandoff`);
- a stop between the rename and the bundle's removal leaves the bundle file
  (`BundleStaysIffStoppedAfterRename`, `KillLeavesBundle`);
- `release` is not idempotent: a second one can take a waiting process's turn
  (`TurnIsLostIffOvertaken`, `SecondReleaseTakesTheTurn`);
- a failed create keeps its reservation when only the boot audit fails
  (`FailedCreateRestoresRecordsIff`, `FailedCreatesDoHappen`);
- a running instance loses its active record after an unaudited start or a failed cleanup
  (`AccountedIffTracked`, `RunningInstancesAreAccountedIff`, `UnauditedStartDoesHappen`);
- an unaudited delete leaves its record for good (`DeleteStrandsIffUnaudited`,
  `UnauditedDeleteStrandsTheRecord`);
- a pinned run without a head passes the check of a named head
  (`PinnedGreenRunIsRefusedIffHeadDiffers`, `HeadlessRunPassesTheHeadCheck`);
- a listed CI run without a numeric id is never looked at
  (`SuccessSpeaksForEveryListedRunIffNumbered`, `UnnumberedRunIsIgnored`);
- a marker quoted in free text is counted, so that numbers skip and the cap comes early
  (`CountsOnceIffFreeTextIsClean`, `CyclesAreNumberedAndCapped`, `QuotedReasonSkipsANumber`,
  `QuotedReasonUsesUpTheCap`);
- the path check accepts ".", which has no parts to refuse (`DotIsTheOnlyDottedPath`).

## Model

| member | source | states |
|---|---|---|
| `Records.ValidateLedger` | tools/gc_dispatch/records.py:171-205 | The validation loop accepts exactly the documents whose every record is valid and whose tickets are all different. |
| `TextOrder.LexLessTransitive` | tools/gc_dispatch/admission.py:33-38 | The string order that breaks sequence ties is transitive. |
| `TextOrder.LexLessTotal` | tools/gc_dispatch/admission.py:33-38 | Two different strings are ordered one way and not the other. |
| `Admission.QueueIsSorted` | tools/gc_dispatch/admission.py:33-38 | The queue holds exactly the queued entries, oldest first, with the ticket breaking a tie. |
| `Admission.PlanAdmission` | tools/gc_dispatch/admission.py:41-62 | The admission loop over the sorted queue computes the recursive walk that the lemmas below are about. |
| `Admission.WalkMeaning` | tools/gc_dispatch/admission.py:44-61 | Closed form of a grant: an entry is admitted exactly when everybody ahead can have the whole clamped request and its own clamped minimum still fits; it then gets its request or all that is left. |
| `Admission.GrantBounds` | tools/gc_dispatch/admission.py:50-61 | A grant lies between the clamped minimum and the clamped request of its own entry, is positive and fits what is left. |
| `Admission.EffectiveIsNearest` | tools/gc_dispatch/admission.py:17-24 | The clamp of a demand is the value nearest to it between one and the capacity. |
| `Admission.PlanIsQueued` | tools/gc_dispatch/admission.py:41-62 | A planned ticket is a queued entry of the ledger and its grant fits the remaining capacity. |
| `Admission.AdmissionIsIndependent` | tools/gc_dispatch/admission.py:41-62 | Admitting any ticket the policy would admit leaves the answer for every other ticket unchanged. |
| `Admission.PollingOrderDoesNotMatter` | tools/gc_dispatch/admission.py:41-62 | For the policy alone, with nothing to sweep between polls: after polls in any order a queued ticket is running exactly if it was polled and the one walk over the starting queue admits it, with that walk's grant; nothing else changes. The ledger's own polls are in DispatcherTurns.PollingOrdersAgree. |
| `Admission.RunningEntryIsSettled` | tools/gc_dispatch/admission.py:41-62 | For the policy alone, with nothing to sweep: no later poll changes the grant of a running entry. DispatcherTurns.GrantsAreForGood covers every step of the ledger. |
| `Admission.BlockedHeadBlocksAll` | tools/gc_dispatch/admission.py:44-56 | While the head of the queue does not fit, no ticket is admitted. |
| `Admission.BlockedHeadKeepsItsTurn` | tools/gc_dispatch/admission.py:44-61 | For the policy alone, with nothing to sweep: while the head is blocked, no sequence of polls and arrivals admits anybody, raises the used capacity or displaces the head. With the sweeps, releases and deaths of the ledger the statements are those of DispatcherTurns. |
| `Admission.IdleHostAdmitsHead` | tools/gc_dispatch/admission.py:17-30 | With nothing running the head gets its whole clamped request, however large its demand. |
| `Admission.LaterEntryChangesNothing` | tools/gc_dispatch/ledger.py:212-219 | An entry with a later sequence number changes no earlier ticket's answer. |
| `Ledger.LedgerStore.Sweep` | tools/gc_dispatch/ledger.py:154-167 | The sweep loop keeps exactly the protected and the unreclaimable entries in order, unlinks the leases of the others, and reports no change only when there is none. |
| `Ledger.LedgerStore.Enqueue` | tools/gc_dispatch/ledger.py:189-224 | A lease, a sweep, then one queued entry at the end with the next sequence number, the ticket, profile, request and minimum as given, the clock and the caller's identity; an invalid ledger leaves no trace. |
| `Ledger.LedgerStore.TryAdmit` | tools/gc_dispatch/ledger.py:226-243 | Sweep under protection, then the plan's grant written into the ticket's own entry; the missing ticket and the invalid ledger are errors. |
| `Ledger.LedgerStore.Release` | tools/gc_dispatch/ledger.py:255-285 | Settling removes the entry and its lease when nothing holds it, and otherwise orphans the entry; errors are swallowed. |
| `Ledger.LedgerStore.Snapshot` | tools/gc_dispatch/ledger.py:287-293 | The returned entries are those of the swept ledger, which is what the directory then holds. |
| `DispatcherRuns.SweepReclaimsOnlyStale` | tools/gc_dispatch/ledger.py:138-152 | A sweep drops an entry whose lease is held only if its supervisor is gone and its age passes the stale bound, and never one with a live owner. |
| `DispatcherRuns.StepKeepsInv` | tools/gc_dispatch/ledger.py:189-293 | Every operation, fork, close, death and tick keeps the ledger valid, sequence numbers increasing, grants within bounds and capacity, and the histories in agreement with the entries. |
| `DispatcherRuns.LedgerIsSoundInEveryRun` | tools/gc_dispatch/ledger.py:189-293 | In every run of any number of processes the ledger passes validation, its numbers are unique and issued, each grant lies between the clamped minimum and the clamped request, and running grants never sum above capacity. |
| `DispatcherRuns.LiveWaiterIsNeverDropped` | tools/gc_dispatch/ledger.py:226-235 | In every run a live waiter's entry is in the ledger, so its next poll never reports a missing ticket. |
| `DispatcherRuns.OnlyStaleEntriesAreReclaimed` | tools/gc_dispatch/ledger.py:138-167 | Whatever the step, an entry lost under a held lease had no live supervisor and was past the bound. |
| `DispatcherRuns.PhysicalUseFitsCapacity` | tools/gc_dispatch/ledger.py:138-152 | In every run the grants some process still spends fit the capacity, apart from entries reclaimed as stale. |
| `DispatcherRuns.FreeLeaseIsSwept` | tools/gc_dispatch/ledger.py:147-148 | A ticket nobody holds any more is gone after the next sweep. |
| `DispatcherRuns.SettledCapacityComesBack` | tools/gc_dispatch/ledger.py:255-266 | A settled ticket leaves the ledger or becomes an orphan that any sweep one stale bound later drops. |
| `DispatcherDemands.EntriesSayWhatWasAsked` | tools/gc_dispatch/ledger.py:189-285 | In every run each field of an entry is what its own process asked for, was told and did: profile, request, minimum, the place of its registration among all of them, and the clocks of registration, grant and last release. |
| `DispatcherDemands.GrantsFitTheDemand` | tools/gc_dispatch/ledger.py:203-243 | In every run a grant is at most what its process asked for, and at least the minimum it asked for or the whole host. |
| `DispatcherDemands.SweepKeepsIffHeldAndRecent` | tools/gc_dispatch/ledger.py:138-152 | In every run the next sweep keeps an entry if and only if some process holds its lease and its own process is alive and unreleased, or released, was granted or registered (whichever came last) less than the stale bound ago. |
| `DispatcherDemands.LeaseFilesAreTheEntries` | tools/gc_dispatch/ledger.py:154-266 | In every run a registered ticket's lease file is on disk exactly while the ledger has its entry. |
| `DispatcherTurns.ProtectionIsIdle` | tools/gc_dispatch/ledger.py:226-230 | A poll's protection of its own ticket changes nothing: a live waiter's entry is never reclaimable. |
| `DispatcherTurns.GrantsAreForGood` | tools/gc_dispatch/ledger.py:189-293 | In every run, no step of any process takes a grant back or changes it. |
| `DispatcherTurns.PollsFollowTheFirstSweep` | tools/gc_dispatch/ledger.py:226-243 | Waiting processes that poll, in any order and any number of times, each get what one walk over the ledger as the first sweep leaves it gives them; earlier grants stay and nobody else gets one. |
| `DispatcherTurns.PollingOrdersAgree` | tools/gc_dispatch/ledger.py:226-243 | Two orders of polling by the same waiting processes give the same grants, sweeps included. |
| `DispatcherTurns.BlockedHeadAdmitsNobody` | tools/gc_dispatch/ledger.py:189-293 | In every run that leaves the head of the swept queue blocked, nobody is admitted and the used capacity never rises, whatever is registered, polled, swept, released, forked or killed. |
| `DispatcherTurns.TurnIsLostIffOvertaken` | tools/gc_dispatch/ledger.py:255-285 | A blocked head that is still in the ledger loses its turn if and only if a second release restarts the stale clock of an orphan queued in front of it. |
| `DispatcherTurns.SecondReleaseTakesTheTurn` | tools/gc_dispatch/ledger.py:255-285 | That happens: releasing a stale orphan once more puts it back in front of a waiting process, although release is documented as idempotent. |
| `DispatcherTurns.BlockedHeadKeepsTheTurn` | tools/gc_dispatch/ledger.py:189-293 | In every run without such a second release a blocked head is first in the swept queue until it leaves the ledger itself. |
| `Workspace.VerifiedMeansLayers` | tools/incus_sandbox/migration.py:145-228 | Verification accepts exactly a checkout with the packet's commit and branch, no hidden row, and index, worktree and untracked files equal to real changes over the layer below. |
| `Workspace.VerificationPinsTheCheckout` | tools/incus_sandbox/migration.py:63-71 | Two checkouts accepted for one packet agree on every index row, every tracked file and every visible untracked file. |
| `Workspace.FlagsWouldHideChanges` | tools/incus_sandbox/migration.py:63-71 | Without the index-flag check a checkout with other contents would pass the diffs. |
| `Workspace.PassesCompose` | tools/incus_sandbox/migration.py:127-136 | Deleting first and writing second gives the overlay that one pass over all index entries describes. |
| `Workspace.ReconstructionVerifiesIffRealizable` | tools/incus_sandbox/migration.py:123-165 | A reconstruction verifies exactly when every declared entry is a real change over its layer and untracked paths are untracked and visible. |
| `Workspace.Checkout.DeleteFromIndex` | tools/incus_sandbox/migration.py:127-130 | The deletion loop leaves index and files overlaid with the deletions. |
| `Workspace.Checkout.AddToIndex` | tools/incus_sandbox/migration.py:131-136 | The addition loop leaves index and files overlaid with the staged blobs. |
| `Workspace.Checkout.WriteFiles` | tools/incus_sandbox/migration.py:137-142 | The worktree and untracked loops overlay the files and leave the index alone. |
| `Workspace.Checkout.ApplyEntries` | tools/incus_sandbox/migration.py:123-142 | On a clean checkout the loops leave index = HEAD overlaid with index entries and files = index overlaid with worktree, then untracked entries. |
| `Workspace.Checkout.VerifyEntries` | tools/incus_sandbox/migration.py:145-228 | The checks and comparison loops accept exactly the verified checkouts. |
| `Publication.Guest.PublishResult` | tools/incus_sandbox/migration.py:291-298 | Handoff, then result, then removal of the ready marker. |
| `Publication.Guest.RecoverWorkspace` | tools/incus_sandbox/migration.py:301-321 | Every branch of recovery: the matching result, the foreign result, the missing record, the failed verification, and finishing the publication. |
| `Publication.Guest.StageWorkspace` | tools/incus_sandbox/migration.py:324-348 | Clear, stage, bundle, reconstruct, verify, mark ready, rename, and remove the bundle on both paths. |
| `Publication.Guest.RestoreMigration` | tools/incus_sandbox/migration.py:351-369 | The whole restore performs exactly the planned file operations and returns the planned outcome. |
| `Publication.StageStates` | tools/incus_sandbox/migration.py:324-348 | The disk after each of the ten operations of an uncrashed restore. |
| `Publication.AttemptIsSound` | tools/incus_sandbox/migration.py:281-348 | One attempt, with any packet and stopped or torn anywhere, publishes only a handoff and result for a workspace that verified against that packet, and never disturbs a complete result. |
| `Publication.EveryResultIsHandedOff` | tools/incus_sandbox/migration.py:291-298 | After any attempts with any packets, a complete result stands beside its own handoff and a workspace verified for it. |
| `Publication.CrashesConverge` | tools/incus_sandbox/migration.py:351-369 | From a destination without a workspace or a result, after any crashed attempts at one migration the next uninterrupted restore leaves the disk of an uncrashed one, with no ready marker; only a bundle file may remain. |
| `Publication.DiskConvergesIffNoResult` | tools/incus_sandbox/migration.py:301-321 | From a destination without a workspace, the disk after any crashed attempts and a completed restore is that of an uncrashed one, bundles apart, if and only if no complete result was left over, this migration's own included. |
| `Publication.OwnResultHidesTheHandoff` | tools/incus_sandbox/migration.py:308-313 | With this migration's own result left over, a kill after the rename ends in a success without a handoff, and a torn handoff write in a success beside a torn one. |
| `Publication.BundleStaysIffStoppedAfterRename` | tools/incus_sandbox/migration.py:324-348 | After any attempts at one migration and a completed restore, from any destination without a workspace, the bundle file remains if and only if some attempt stopped exactly between the rename and the bundle's removal. |
| `Publication.KillLeavesBundle` | tools/incus_sandbox/migration.py:345-348 | The witness of that: a kill between the rename and the bundle's removal on a fresh destination leaves the bundle behind a completed retry. |
| `Publication.ForeignResultBlocksRecovery` | tools/incus_sandbox/migration.py:314-315 | With another migration's result in place a crash after the rename blocks every retry. |
| `Publication.ConvergesIffNoForeignResult` | tools/incus_sandbox/migration.py:306-318 | The returned outcome, not the disk: restoring succeeds after every sequence of crashes if and only if no complete result of another migration was left over. |
| `Publication.RestoreSucceedsIffItsOwn` | tools/incus_sandbox/migration.py:301-369 | A completed restore returns a result if and only if the destination is free, or holds this migration's own result or its own marker without a result, and the exposed checkout verifies; that result is then on the disk beside a verified workspace, with no marker left. |
| `Publication.RefusalPublishesNothing` | tools/incus_sandbox/migration.py:301-348 | A refused restore leaves workspace, handoff, result and markers as they were. |
| `PublishedPackets.EveryResultTellsItsPacket` | tools/incus_sandbox/migration.py:261-298 | In every run of attempts with any accepted packets, a complete result is one packet's, field by field (identity, owner, the counts of its three lists, what is unfinished), beside its handoff and a workspace with its commit, branch and, at every entry's path, its bytes. |
| `MigrationPacket.SafePathIsNormal` | tools/incus_sandbox/migration_packet.py:34-41 | The rule by parts that the model uses accepts exactly the relative paths that posix normalization leaves unchanged and whose parts are none of the refused ones. |
| `MigrationPacket.DotIsTheOnlyDottedPath` | tools/incus_sandbox/migration_packet.py:38-40 | Of all paths with a "." part exactly "." itself is accepted. |
| `MigrationPacket.ScanSections` | tools/incus_sandbox/migration_packet.py:97-103 | The cursor loop accepts exactly the section tables described by SectionsMeaning. |
| `MigrationPacket.ValidateSections` | tools/incus_sandbox/migration_packet.py:93-109 | The section table with its count bounds and its one bundle and one handoff. |
| `MigrationPacket.SectionsMeaning` | tools/incus_sandbox/migration_packet.py:82-103 | A table is accepted exactly when its rows are well formed, each offset is the sum of the lengths before it, the lengths fill the payload, and every digest matches. |
| `MigrationPacket.SectionsConcatToPayload` | tools/incus_sandbox/migration_packet.py:82-103 | The accepted sections put end to end are exactly the payload. |
| `MigrationPacket.ValidateRole` | tools/incus_sandbox/migration_packet.py:155-165 | The entry loop of one role, with its running previous path. |
| `MigrationPacket.EntriesMeaning` | tools/incus_sandbox/migration_packet.py:112-146 | A role's entries are accepted exactly when each is well formed and the paths increase strictly. |
| `MigrationPacket.EnvelopeRoundTrip` | tools/incus_sandbox/migration_packet.py:171-186 | Reading the length envelope undoes writing it, and accepts nothing else. |
| `MigrationPacket.AcceptedSectionsAreClosed` | tools/incus_sandbox/migration_packet.py:262-274 | An accepted packet is an exact envelope whose sections tile the payload, match their digests and give the declared identities. |
| `MigrationPacket.AcceptedEntriesAreClosed` | tools/incus_sandbox/migration_packet.py:149-168 | Every accepted live entry names an in-range section with its own role, path and mode; paths increase strictly and the total is bounded. |
| `MigrationPacket.CapturedIsWellFormed` | tools/incus_sandbox/migration_packet.py:262-274 | An accepted packet meets what reconstruction and verification require; which entries its three lists hold is PacketRestore.CapturedIsThePacket. |
| `PacketRestore.AcceptedIffClosed` | tools/incus_sandbox/migration_packet.py:171-274 | A packet is accepted, as this metadata and payload, if and only if it is the envelope of a document with exactly its fields, whose rows and items have exactly theirs within their limits, whose table tiles the payload, whose lists are sorted and whose identities match. |
| `PacketRestore.AcceptedPacketIsItsDocument` | tools/incus_sandbox/migration_packet.py:189-274 | An accepted packet says of every name, section and entry what the document's field of that name says, role by role. |
| `PacketRestore.CapturedIsThePacket` | tools/incus_sandbox/migration.py:123-142 | The captured state has for each role exactly its entries in order: the path, nothing for a deletion, else the bytes of its own section and the mode its mode string names. |
| `PacketRestore.ReconstructionIsThePacket` | tools/incus_sandbox/migration.py:123-142 | The rebuilt index has each index entry's own bytes and mode and HEAD elsewhere; the files have the untracked entries, else the worktree entries, else the index. |
| `PacketRestore.RestorePacket` | tools/incus_sandbox/migration.py:123-142 | Applying a packet to a fresh checkout leaves that index and those files. |
| `MigrationPacket.StateDigestPinsTheCapture` | tools/incus_sandbox/migration_packet.py:235-259 | With collision-free digests, equal state digests mean the same captured state. |
| `EventLog.EventWriter.Write` | tools/incus_sandbox/events.py:107-143 | A record over the bound is refused; otherwise whole oldest lines go until the record fits. |
| `EventLog.TrimmingFindsLongest` | tools/incus_sandbox/events.py:107-114 | Trimming line by line finds the longest suffix that fits. |
| `EventLog.AppendToHistory` | tools/incus_sandbox/events.py:137-143 | One write over the longest suffix of the history leaves the longest suffix of the longer history. |
| `EventLog.StartIsLongest` | tools/incus_sandbox/events.py:107-114 | The suffix used as the reference fits, and no longer one does. |
| `EventLog.LogIsLongestSuffix` | tools/incus_sandbox/events.py:83-143 | After any writes the log is the longest suffix, in whole lines, of all accepted records that fits the bound. |
| `CycleMarker.DecimalRoundTrip` | mcp/ground-control/lib/api-requirements.js:40-50 | Reading a printed decimal number gives the number back. |
| `CycleMarker.EscapeRoundTrip` | mcp/ground-control/lib/api-requirements.js:142 | JSON string escaping (section 7 of RFC 8259) is undone by parsing, surrogate pairs and lone surrogates included. |
| `CycleMarker.ParseMarkerEntries` | mcp/ground-control/lib/api-requirements.js:36-53 | The loop returns exactly the decodable matches of the issue, in order. |
| `CycleMarker.MarkerMatches` | mcp/ground-control/lib/api-requirements.js:24-26 | The pattern finds in a built comment its own issue, escaped branch and cycle, and stops at the first comment end. |
| `CycleMarker.MarkerRoundTrip` | mcp/ground-control/lib/api-requirements.js:129-166 | Scanning a built comment returns its branch and cycle, followed only by markers in its free text. |
| `CycleMarker.CountsOnceIffFreeTextIsClean` | mcp/ground-control/lib/api-requirements.js:36-60 | A built comment counts as one cycle if and only if its free text holds no marker of the issue. |
| `CycleMarker.PlainCycleCountsOnce` | mcp/ground-control/lib/api-requirements.js:129-166 | A branch and a reason without "<" make the comment count exactly once, and for its own issue alone. |
| `CycleMarker.QuotedMarkerIsCounted` | mcp/ground-control/lib/api-requirements.js:36-60 | A foreign comment that quotes a marker verbatim behind plain text is counted as a cycle. |
| `CycleMarker.CyclesAreNumberedAndCapped` | mcp/ground-control/lib/api-requirements.js:61-128 | Over any run on one issue, under any branch names, completed cycles are counted once each, numbered 1, 2, 3 and so on, and none passes the cap without a reasoned override, if and only if no foreign comment and no free text of a completed cycle carries a marker of the issue. |
| `CycleMarker.PlainRunsAreNumberedAndCapped` | mcp/ground-control/lib/api-requirements.js:36-166 | The same for every run whose branches and reasons hold no "<" and whose foreign comments open no comment, which a caller can check. |
| `CycleMarker.ReviewTakesPlaceIff` | mcp/ground-control/lib/api-requirements.js:61-128 | After every clean run a requested review takes place if and only if fewer cycles than the cap took place or it overrides the cap with a reason that is not blank; it is then the next cycle, as asked. |
| `QuotedMarkers.OrdinaryIsQuotable` | mcp/ground-control/lib/api-requirements.js:129-166 | Every ordinary comment the server writes can be quoted as the reason of a later override. |
| `QuotedMarkers.QuotedReasonCountsTwice` | mcp/ground-control/lib/api-requirements.js:36-60 | The comment of an override whose reason quotes a comment counts as two cycles. |
| `QuotedMarkers.QuotedReasonSkipsANumber` | mcp/ground-control/lib/api-requirements.js:61-166 | After such an override the next authorized cycle is numbered 3 although it is the second. |
| `QuotedMarkers.QuotedReasonUsesUpTheCap` | mcp/ground-control/lib/api-requirements.js:61-128 | After such an override a cap of two refuses the next ordinary request although one cycle took place. |
| `AsyncJobs.Base36RoundTrip` | mcp/ground-control/lib/async-job-registry.js:303 | Reading a base-36 number gives the number back. |
| `AsyncJobs.HandlesAreUnique` | mcp/ground-control/lib/async-job-registry.js:301-303 | Two handles are equal only for the same start time and serial number. |
| `AsyncJobs.HandlesAreAccepted` | mcp/ground-control/lib/async-job-registry.js:352-360 | No handle the registry gives out is refused by the length and shape test. |
| `AsyncJobs.HandleFindsItsJob` | mcp/ground-control/lib/async-job-registry.js:352-363 | A handle finds its own job while the registry holds it, and nothing afterwards. |
| `AsyncJobs.AsyncJobRegistry.Reap` | mcp/ground-control/lib/async-job-registry.js:44-51 | The loop removes exactly the jobs finished longer than the retention time ago. |
| `AsyncJobs.AsyncJobRegistry.Start` | mcp/ground-control/lib/async-job-registry.js:240-350 | Validation, sweep, replay or conflict or eviction, contention, capacity, then a fresh running job. |
| `AsyncJobs.AsyncJobRegistry.Poll` | mcp/ground-control/lib/async-job-registry.js:352-363 | Sweep, then the job's report or not found. |
| `AsyncJobs.AsyncJobRegistry.Await` | mcp/ground-control/lib/async-job-registry.js:371-399 | An invalid wait, an unknown or a terminal job answers at once; a running job gets a waiter with an armed timer. |
| `AsyncJobs.AsyncJobRegistry.TimerFires` | mcp/ground-control/lib/async-job-registry.js:388-395 | A timer disarms and settles its own promise and leaves the waiter list. |
| `AsyncJobs.AsyncJobRegistry.Cancel` | mcp/ground-control/lib/async-job-registry.js:403-441 | Sweep, then not found, already terminal, not cancellable, or an abort signal; a cancelling answer is about a running cancellable job and aborts that job alone, any other answer changes no job. |
| `AsyncJobs.AsyncJobRegistry.Finish` | mcp/ground-control/lib/async-job-registry.js:341-348 | The last callback stamps the end, empties the waiter list and releases each waiter in turn. |
| `AsyncJobRuns.StepKeepsInv` | mcp/ground-control/lib/async-job-registry.js:240-441 | Every call, callback and timer keeps the registry ordered, within capacity and consistent with all jobs and waits. |
| `AsyncJobRuns.Run` | mcp/ground-control/lib/async-job-registry.js:240-441 | Every state a run reaches satisfies those invariants. |
| `AsyncJobRuns.EveryWaitIsSettledOrPending` | mcp/ground-control/lib/async-job-registry.js:371-399 | In every run a promise settled at most once, and an unsettled one still has its timer and is a waiter of an unfinished job. |
| `AsyncJobRuns.CompletionReleasesEveryWaiter` | mcp/ground-control/lib/async-job-registry.js:341-348 | Completion settles exactly the pending waits of its own job, each with a terminal report. |
| `AsyncJobRuns.AnswersAreFinal` | mcp/ground-control/lib/async-job-registry.js:386-398 | A settled promise never settles again and keeps its answer. |
| `AsyncJobRuns.TimeoutSettlesItsWait` | mcp/ground-control/lib/async-job-registry.js:388-395 | An expired timer settles its own promise with the job as it stands and changes nothing else. |
| `AsyncJobRuns.TerminalNeverReverts` | mcp/ground-control/lib/async-job-registry.js:330-348 | Terminal statuses, results and finishing times never change. |
| `AsyncJobRuns.OnlyExpiredOrStaleJobsLeave` | mcp/ground-control/lib/async-job-registry.js:240-264 | A job leaves the registry only after its retention, or when a keyed start with the same input declares its result stale; a running job never leaves. |
| `AsyncJobRuns.SlotAnswersWithItsOneJob` | mcp/ground-control/lib/async-job-registry.js:240-264 | A keyed start gets the retained job of its slot back, or a conflict for other input; only a stale result lets a new job start. |
| `AsyncJobRuns.RegistryIsSoundInEveryRun` | mcp/ground-control/lib/async-job-registry.js:269-350 | In every run one registered job per key and namespace, size within capacity, running jobs registered, finished jobs terminal and without waiters. |
| `AsyncJobRuns.ScopeRunsOneJobAtATime` | mcp/ground-control/lib/async-job-registry.js:280-291 | In every run two single-flight jobs of one scope never run together. |
| `AsyncJobRuns.UnguardedStartOverlaps` | mcp/ground-control/lib/async-job-registry.js:280-291 | A start that is not single-flight does run beside a single-flight job of its scope. |
| `AsyncJobStories.EveryJobFollowsItsStory` | mcp/ground-control/lib/async-job-registry.js:293-348 | In every run a job object is what its start declared, aborted exactly by an accepted cancel, and done, failed or cancelled exactly as its function returned or raised. |
| `AsyncJobStories.CancelIsAnsweredByTheStory` | mcp/ground-control/lib/async-job-registry.js:403-441 | In every run a cancel of a held job answers already terminal once its function ended, else cancelling if its start declared it cancellable and not cancellable otherwise; it is aborted afterwards exactly if a cancel was accepted, and no other job changes. |
| `AsyncJobStories.CancelledIffAcceptedAndRaised` | mcp/ground-control/lib/async-job-registry.js:330-340 | In every run a job ends cancelled if and only if its function raised after a cancel was accepted, failed if it raised otherwise, done with the result it returned. |
| `AsyncJobStories.PollTellsTheStory` | mcp/ground-control/lib/async-job-registry.js:99-133 | In every run a poll of a held job reports its status, its result, and the time from its start to its last callback or to now. |
| `AsyncJobStories.AwaitIsAnsweredByTheStory` | mcp/ground-control/lib/async-job-registry.js:371-399 | In every run an await settles at once for a wait outside 1 ms to 1800 s or a job whose function ended, with that job's report; beside a running job its promise waits, armed and among the waiters. |
| `AsyncJobStories.StartIsAnsweredByTheStories` | mcp/ground-control/lib/async-job-registry.js:269-350 | In every run a valid start that finds no retained job of its slot is contended if and only if it is single-flight and a job of its scope has not ended, else refused if and only if the retained jobs fill the registry, else a new running job. |
| `AsyncJobStories.RepeatIsAnsweredByTheStory` | mcp/ground-control/lib/async-job-registry.js:240-264 | In every run a start of a held job's slot is a conflict if and only if its input differs, else that job's report, unless the caller calls its returned result stale. |
| `AsyncJobStories.RetainedForThirtyMinutes` | mcp/ground-control/lib/async-job-registry.js:44-51 | A job leaves by expiry exactly when more than thirty minutes have passed since its last callback. |
| `AsyncJobStories.OptionsAreValidIff` | mcp/ground-control/lib/async-job-registry.js:135-200 | Options are valid if and only if key, namespace and fingerprint come together, well formed, and the scope is bounded. |
| `CiWatcher.JudgePending` | mcp/ground-control/lib/ci-watcher.js:368-394 | The loop over pending runs stops at the first one queued too long and remembers the first one over the total cap. |
| `CiWatcher.Sweep` | mcp/ground-control/lib/ci-watcher.js:314-341 | An accepted sweep holds one fetched snapshot per watched position, none of them on another head. |
| `CiWatcher.SweepRuns` | mcp/ground-control/lib/ci-watcher.js:314-341 | The fetch loop computes that sweep and stops at the first failed fetch or foreign head. |
| `CiWatcher.MergeIds` | mcp/ground-control/lib/ci-watcher.js:309-311 | The loop adds each newly listed id once, at the end. |
| `CiWatcher.PollRuns` | mcp/ground-control/lib/ci-watcher.js:291-436 | The poll loop with its watched set, window flag and queue clock; which run it names, for what and in which round is CiBlame.PollEndsWithTheFirstReport. |
| `CiWatcher.WatchCiRun` | mcp/ground-control/lib/ci-watcher.js:112-436 | Validation, head binding, discovery and polling, with every refusal. |
| `CiVerdicts.JudgeSucceeds` | mcp/ground-control/lib/ci-watcher.js:401-418 | A sweep is reported as success only on a closed window with every run completed, successful and free of failed jobs. |
| `CiVerdicts.SuccessIsSound` | mcp/ground-control/lib/ci-watcher.js:225-418 | An unpinned success names a full commit and at least one run, and rests on a listing taken at or after the deadline and on one later sweep in which every run of every listing was completed with success on that commit. |
| `CiVerdicts.PinnedSuccessIsItsRun` | mcp/ground-control/lib/ci-watcher.js:226-229 | A pinned success is about exactly its own run; when the caller named a head, the run is on it if and only if the fetched snapshot carries a head. |
| `CiVerdicts.PinnedGreenRunIsRefusedIffHeadDiffers` | mcp/ground-control/lib/ci-watcher.js:329-339 | A pinned green run is refused exactly when its snapshot carries a head other than the named one, and succeeds otherwise. |
| `CiVerdicts.HeadlessRunPassesTheHeadCheck` | mcp/ground-control/lib/ci-watcher.js:329 | A concrete pinned success on a named head that the fetched snapshot never mentions. |
| `CiVerdicts.EveryListedRunCountsIffNumbered` | mcp/ground-control/lib/ci-watcher.js:103-109 | The ids of a listing stand for all its runs of the head if and only if each has a numeric id. |
| `CiVerdicts.SuccessSpeaksForEveryListedRunIffNumbered` | mcp/ground-control/lib/ci-watcher.js:291-366 | An unpinned success speaks for every run of its head in every listing it read if and only if each of those runs has a numeric id. |
| `CiVerdicts.UnnumberedRunIsIgnored` | mcp/ground-control/lib/ci-watcher.js:103-109 | A concrete watch that succeeds although a listed run of its head was never looked at. |
| `CiBlame.PollEndsWithTheFirstReport` | mcp/ground-control/lib/ci-watcher.js:291-436 | The verdict is that of the first round with something to report: a failed listing; the first watched run that cannot be fetched or is on another head; the first watched run with a failing conclusion or job; a settled closed set, success only if all succeeded; the first run waiting too long for a runner; or, past the cap and with none such, the first pending run. All earlier rounds have nothing to report. |
| `CiBlame.WatchEndsWithTheFirstReport` | mcp/ground-control/lib/ci-watcher.js:112-436 | The same of a whole watch, started with the pinned run or with the runs of the listing that ended the first wait. |
| `CiBlame.RefusedBeforeSweeping` | mcp/ground-control/lib/ci-watcher.js:130-290 | Exactly when a watch is refused for its input, its head or its first listing. |
| `CiBlame.DiscoveryMeaning` | mcp/ground-control/lib/ci-watcher.js:253-290 | The first wait ends with the first listing that names a run of the head, or the first failed one, or the first at or past the deadline. |
| `CiBlame.JudgeMeaning` | mcp/ground-control/lib/ci-watcher.js:365-394 | Judging finds the first pending run that waited longer than the bound since its start, its creation or its first sighting; else, past the cap, the first pending run; else it notes the sightings. |
| `CiBlame.SleepMeaning` | mcp/ground-control/lib/ci-watcher.js:360-396 | Between rounds the loop sleeps the interval, over an all-green open window no longer than to its deadline. |
| `CiBlame.MergeAddsTheNew` | mcp/ground-control/lib/ci-watcher.js:309-311 | Relisting keeps the watched ids in place and adds the new ones at the end, each once, and nothing else. |
| `CiVerdicts.JudgeIsOverCap` | mcp/ground-control/lib/doc-coverage.js:206-232 | Once the total cap is passed every sweep with a pending run ends the watch. |
| `CiVerdicts.DiscoveryEnds` | mcp/ground-control/lib/ci-watcher.js:258-269 | The first wait ends when the clock advances with its sleeps. |
| `CiVerdicts.PollingEnds` | mcp/ground-control/lib/ci-watcher.js:291-396 | The poll loop, the all-green wait included, ends when the clock advances with its sleeps. |
| `CiVerdicts.EveryWatchEnds` | mcp/ground-control/lib/ci-watcher.js:196-396 | Every watch reaches a verdict within its registration time and total cap, whatever GitHub answers. |
| `Allocation.AdmissionIsSound` | tools/incus_sandbox/helper.py:156-198 | A reservation keeps the saved file readable, its names unique and the active records within capacity. |
| `Allocation.RollbackRestores` | tools/incus_sandbox/helper.py:320-330 | Undoing a reservation restores the record map exactly, order included. |
| `Allocation.LifecycleHelper.RollbackReservation` | tools/incus_sandbox/helper.py:320-336 | Restores the prior record and deletes only an instance the call created, if the deletion succeeds. |
| `Allocation.LifecycleHelper.CreateVm` | tools/incus_sandbox/helper.py:345-390 | Reserve, three commands, audit, rollback on any failure, and the separate boot audit; a success leaves a running instance and an active record of the fixed processors, memory and disk owned by the operator. |
| `Allocation.LifecycleHelper.StartVm` | tools/incus_sandbox/helper.py:345-395 | Reserve an inactive record, start, audit, rollback without stopping, then clear the task state. |
| `Allocation.LifecycleHelper.StopVm` | tools/incus_sandbox/helper.py:398-412 | Own, quiet the task session, stop, release, audit. |
| `Allocation.LifecycleHelper.DeleteVm` | tools/incus_sandbox/helper.py:414-423 | Confirm, own, quiet the task session, delete, release, audit, and forget record, binding and task state. |
| `Allocation.FailedStartRestoresRecords` | tools/incus_sandbox/helper.py:345-377 | A failed start leaves the saved records exactly as they were. |
| `Allocation.FailedCreateRestoresRecordsIff` | tools/incus_sandbox/helper.py:389-390 | A failed create restores the records exactly unless only the boot audit failed; then the sandbox stays reserved and launched. |
| `Allocation.FailedCreatesDoHappen` | tools/incus_sandbox/helper.py:320-390 | On an empty host: the failed boot audit that leaves record and instance, and the failed cleanup that leaves a running instance without a record. |
| `Allocation.AccountedIffTracked` | tools/incus_sandbox/helper.py:345-377 | An operation keeps every running instance backed by an active record if and only if it is neither an unaudited start nor a create whose cleanup fails. |
| `Allocation.DeleteStrandsIffUnaudited` | tools/incus_sandbox/helper.py:414-423 | A delete leaves an inactive record without an instance if and only if it is confirmed, owned and quiet, its command succeeds and its audit fails. |
| `Allocation.RecordLeavesIffDeleteCompletes` | tools/incus_sandbox/helper.py:235-243 | A record leaves the file if and only if the operation is a delete of that sandbox that is confirmed, owned and quiet and whose command and audit succeed. |
| `Allocation.UnauditedDeleteStrandsTheRecord` | tools/incus_sandbox/helper.py:362-374 | A delete whose audit fails leaves an inactive record that no sequence of later operations, by any caller and on any names, removes or changes. |
| `Allocation.AllocationsStayWithinCapacity` | tools/incus_sandbox/helper.py:156-198 | In every sequence of operations, whatever fails, the saved file stays valid and active records fit processors, memory, and disk less overhead. |
| `Allocation.RunningInstancesAreAccountedIff` | tools/incus_sandbox/helper.py:345-377 | Every running instance has an active record all through a run if and only if none of its operations is an unaudited start or a create whose cleanup fails. |
| `Allocation.UnauditedStartDoesHappen` | tools/incus_sandbox/helper.py:345-395 | A create, a stop and a start whose audit fails: the instance runs without an active record. |
| `AllocationSlots.EveryRecordIsOneVm` | tools/incus_sandbox/helper.py:182-198 | Whatever fails, every record has exactly the fixed processors, memory and disk and the operator as owner, and that many times the number of active records fits each bound. |
| `AllocationSlots.RunningInstancesFit` | tools/incus_sandbox/helper.py:182-198 | In a run without an unaudited start or a failed cleanup, the VM size times the number of running instances fits each bound. |
| `AllocationSlots.AdmittedIffOneMoreFits` | tools/incus_sandbox/helper.py:156-198 | A request is admitted if and only if the host reports room, one more VM fits beside the active ones, the caller is the operator, and a create finds no record, a start an inactive one. |
| `AllocationSlots.UnfailingHelperIsTheTable` | tools/incus_sandbox/helper.py:345-423 | Without failures the helper is a table of stopped and running sandboxes: after any callers' operations its instances and active records are the table's, and the next operation succeeds if and only if the table allows it. |
| `AllocationSlots.SuccessClearsTheSession` | tools/incus_sandbox/helper.py:391-423 | A successful start, stop or delete leaves no task session of its own sandbox and a delete no binding; all others stay. |
| `AllocationSlots.OtherInstancesAreFramed` | tools/incus_sandbox/helper.py:320-336 | No operation touches another sandbox's instance, and a create leaves an existing instance of its name alone. |
| `SandboxRuns.StepKeepsInv` | tools/incus_sandbox/task_environment.py:274-329 | Every step of every process keeps the locks exclusive, task state backed and the records sound. |
| `SandboxRuns.EveryTaskIsBacked` | tools/incus_sandbox/task_environment.py:279-313 | In every interleaving, killed processes included, a task state file has a source binding with the same repository and digest and an active record. |
| `SandboxRuns.EveryAllocationFits` | tools/incus_sandbox/helper.py:182-198 | In every interleaving the active records fit the fixed capacity. |
| `SandboxRuns.LocksExclude` | tools/incus_sandbox/task_environment.py:124-137 | No two processes are inside the same lock, in any interleaving. |
| `SandboxRuns.OnlyTransfersBind` | tools/incus_sandbox/transfer.py:215-223 | A sandbox without a binding gets one exactly when a transfer records it. |
| `SandboxRuns.DeleteLeavesNothing` | tools/incus_sandbox/helper.py:235-243 | The last step of a delete leaves neither a binding nor a task state file. |
| `SandboxRuns.NoTaskWithoutNewBinding` | tools/incus_sandbox/helper.py:414-423 | After a delete no task runs until a transfer records a new binding, even if the name is created again. |
| `SandboxRuns.SomeProcessCanAdvance` | tools/incus_sandbox/task_environment.py:124-137 | In every interleaving some remaining process can take its next step. |
| `SandboxRuns.EveryProcessCanFinish` | tools/incus_sandbox/task_environment.py:124-137 | From every state any interleaving reaches, the remaining processes can all be run to their end without one of them blocking, whatever the outside world answers to each step. |
| `SandboxCallers.EveryRecordIsOneVm` | tools/incus_sandbox/helper.py:182-198 | In every interleaving every record has the fixed sizes and the operator as owner, and the active ones fit each bound by their number. |
| `SandboxCallers.EveryChangeIsTheOperators` | tools/incus_sandbox/task_environment.py:172-174 | In every interleaving only steps of the operator's processes change a record or a task state file. |
| `SandboxCallers.TaskAppearsForItsOwner` | tools/incus_sandbox/task_environment.py:172-313 | In every interleaving a task state file appears only at a step of the operator that owns the sandbox's active record, with the binding the task asked for. |
| `SandboxCallers.ProcessAloneIsTheOperation` | tools/incus_sandbox/helper.py:345-423 | Alone on the host, the steps of a lifecycle process leave the records, task state files and bindings of the sequential operation, and no process. |
| `SandboxCallers.TaskStartAlone` | tools/incus_sandbox/task_environment.py:274-313 | A task start alone writes the task state file if and only if its caller owns the active record, the binding is the requested one and every step succeeds. |
| `SandboxCallers.TaskStopAlone` | tools/incus_sandbox/task_environment.py:315-323 | A task stop alone removes the task state file if and only if its caller owns the active record and every step succeeds. |
| `SandboxCallers.TransferAlone` | tools/incus_sandbox/transfer.py:215-223 | A transfer alone changes nothing beside a task; otherwise the old binding goes first, and the new one is recorded if and only if everything succeeded and the packet names one. |
| `Base64.DecodeUndoesEncode` | tools/incus_sandbox/task_environment.py:262 | Base64 decoding (section 4 of RFC 4648) undoes encoding for every byte string. |
| `TaskFrame.Resolve` | tools/incus_sandbox/task_environment.py:253-264 | The loop yields one frame item per variable with its encoded value, and a status with names and sources only, or nothing when a value is unavailable. |
| `TaskFrame.EnvironmentFromFrame` | tools/incus_sandbox/task_launcher.py:86-101 | The guest loop computes the environment or refuses the frame. |
| `TaskFrame.FixedNamesAreReserved` | tools/incus_sandbox/repository_environment.py:37-44 | No accepted name is one of the fixed variables. |
| `TaskFrame.ParsedMeaning` | tools/incus_sandbox/repository_environment.py:100-117 | An accepted declaration has at most 128 differently named variables with valid names and bounded literals. |
| `TaskFrame.FrameOpens` | tools/incus_sandbox/task_launcher.py:53-63 | The guest opens a delivered frame to exactly the host's items. |
| `TaskFrame.FillMeaning` | tools/incus_sandbox/task_launcher.py:66-101 | The guest adds exactly the declared names with their decoded values, and refuses only an oversized value. |
| `TaskFrame.GuestGetsTheDeclaredEnvironment` | tools/incus_sandbox/task_environment.py:279-302 | The guest accepts a delivered frame if and only if no value exceeds its bound, and then has the fixed variables unchanged and exactly the declared names and values. |
| `TaskFrame.DeliveredFrameIsAccepted` | tools/incus_sandbox/task_launcher.py:81-82 | With the configured bound of at most 16 KiB every delivered frame is accepted. |
| `TaskSources.ParsedIffDeclared` | tools/incus_sandbox/repository_environment.py:53-117 | A declaration is accepted, with these variables, if and only if it is a bounded document of this repository whose items declare exactly them, at most 128, with different names and aliases. |
| `TaskSources.AuthorityNamesAreRefused` | tools/incus_sandbox/repository_environment.py:37-44 | No accepted name begins like one that steers the loader, an interpreter, Git or the agent. |
| `TaskSources.ResolvesIffProvided` | tools/incus_sandbox/task_environment.py:209-264 | A task resolves if and only if every alias names an available, absolute, trusted file of bounded text without a zero byte; its values are exactly the literals and the contents of those files. |
| `TaskSources.EveryVariableArrives` | tools/incus_sandbox/task_environment.py:253-302 | From document and provider files to the guest: every variable arrives as its literal or as the text of its alias's file, the fixed variables are unchanged, and nothing else is set. |
| `TaskSources.GuestAcceptsIff` | tools/incus_sandbox/task_launcher.py:41-101 | Whatever arrives, the guest accepts it if and only if it is a bounded closed frame whose items carry differently named valid variables with bounded text; the environment is then the fixed variables and those. |
| `TaskSources.StandardExamples` | tools/incus_sandbox/task_environment.py:262 | The encoding gives the examples of section 10 of RFC 4648. |

## Left out

- Dispatcher: real `flock` and `/proc` probes, the signal fallback on hosts without `/proc`, process tokens as text, and failing disk writes; a probe's answer is a parameter and a write succeeds.
- Dispatcher: the capacity is one constant for all processes, as the command line and configuration are not modelled.
- Dispatcher: a process killed inside the lock between unlinking leases and replacing the ledger; each locked operation is one step.
- Workspace: symbolic links in parent directories, containment of link targets, and a path that is a directory for another entry; trees are flat maps from path to content.
- Workspace: a packet entry for the path "."; writing it acts on the staging directory itself and the reconstruction fails, where the model treats it as one more flat path.
- Workspace: Git itself; what `ls-files` and `diff` report is defined from the rows and files, and ignored files are unconstrained by verification.
- Publication: power loss, short writes and the order of synchronisation; a crash keeps a prefix of the file operations and may tear one.
- Publication: failures of single commands inside an attempt other than a failed verification; they stop the attempt as a crash does, except that the bundle is then removed.
- MigrationPacket: SHA-256 and JSON text; digests are functions, assumed free of collisions only where a lemma says so, and the metadata document is what a decoder parameter returns.
- Allocation: truncation before the rewrite of the allocations file; a save is atomic.
- Allocation: instance commands succeed only on instances that fit them (launch on a new name, the others on an existing one) and may always fail; whether an instance is already running is not checked.
- SandboxRuns: the contents of the steps (command lines, audit records, packet limits); a step's success is the outside world's answer, and declarations are compared as repository and digest.
- SandboxRuns: a binding or task state file that exists but does not parse.
- TaskFrame: UTF-8 and JSON text; reading undoes writing, and only the NUL character encodes to a zero byte. The host's provider policy is a map from alias to file.
- Base64: the decoder's treatment of malformed padding is the strict one, where the library may be more lenient.
- AsyncJobs: progress snapshots, failure texts and their redaction, job kinds, input fingerprint computation, and a stale verdict that throws.
- CiWatcher: durations, URLs and log summaries of an envelope, and the repository authorization before the first clock reading.
- CiWatcher: snapshots are fetched by position in the watched list, so a listing that repeats an id may answer differently for each.
- CycleMarker: publication attributes of a marker, and numbers above 2^53, which JavaScript rounds.
- EventLog: the fields of a record; a record is one line of ASCII text, and refused fields never reach the log.
- Policy checks, Sonar and citation tools, image building, skills, issue closing and the integration chains: text scans, network calls and early-return chains that would mostly add easy members.
