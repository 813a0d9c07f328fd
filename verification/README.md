# Models and proofs for PanelBridge and hccast_wired

This project models the parts of the repository whose guarantees are about every run
rather than about one call: crash-safe journals, lifecycle protocols and streaming
parsers. Each component is one Dafny module named after what it models.

| module | component |
|---|---|
| `Framing` | HCCAST frames: encoder, incremental parser, resynchronisation |
| `AnnexB` | H.264 byte streams: NAL splitting and access units |
| `Handshake` | the bounded marker search on the worker's output |
| `Supervisor` | the live supervisor: one worker, any clients, retries and cleanup evidence |
| `InstallTransaction` | apply and restore of five files under one journal |
| `AptPlan`, `PackageState` | inspection of a simulated installation, and what an inventory says about it |
| `AttemptJournal` | the hash-chained attempt journal and the package transaction it guards |
| `ManagedText`, `Desktop` | managed blocks in user configuration, and their install and uninstall |
| `Maintenance` | the enrollment lifecycle: write-ahead operations, rollback, removal |
| `Advanced` | boot trials and CPU policy across restarts |
| `Network` | the exclusive network lease, and the Wi-Fi Display sink check |
| `Bytes` | octets, options and a few sequence facts |

## How the models are built

**Crashes.** A call has the `power` for some number of durable steps and fails before the
next one, by dying or by an I/O error; the value is arbitrary at every call. The invariant
(`Valid`, with `Fits` where nobody else edits) holds after every step, and the journaled
components and the lease end in a method `AnyHistory`: any calls in any order, with any power.
A file being created may be left absent, torn or complete; a replacement is atomic.

**Everybody else.** Files, packages, boot facts, health, backends and child processes are
chosen arbitrarily wherever the code looks at them. Statements that need nobody to
interfere say so (`quiet` and `Fits()` for ever, `Still()` and `!editing` for one call);
the others hold regardless. Where the environment decides whether a call can succeed, a
field says that it does not stand in the way (`obeying` for CPU writes, `smooth` for checks,
effects, the package manager and backends), and the contract says that the call then succeeds.

**Methods and functions.** Code that updates state is a class whose methods update fields,
proved against functions and predicates; code that computes values is functions. The
parsers' loops are proved equal to one whole-stream definition, and the theorems about
chunks, round trips and accounting are about that definition.

**Digests.** SHA-256 is an injective constructor: a digest is its preimage.

## What does not hold

Four properties that one might expect of the code fail, and the models say exactly when.

* *Uninstall after install.* `_item` accepts an original that ends in
  `# END PanelBridge managed output` without a newline; appending the block completes a
  second end mark, and uninstall refuses from then on. `ManagedText.AppendedIsManaged`
  and `Desktop.DesktopSetup.Uninstall` show that this is the only such case. The
  corresponding overlap of the opening mark is harmless, because occurrences are counted
  without overlap.
* *The guardian's deadline.* An undisturbed, uninterrupted guardian call at or after a trial's
  recorded deadline leaves it active or confirmed in the journal exactly in three cases: the
  facts of the host are refused; the trial is confirmed, still in its own verified and healthy
  boot, and within four hours of its start, which is what a confirmed trial is measured
  against; or it is abandoned, in a later normal boot whose baseline is verified but whose
  frequency is not the stock one or which is unhealthy. From the end of that time on only the
  first and the last remain (`Advanced.PastRecordedDeadline`, `Advanced.OverdueLeftRunning`,
  both on the method itself in `Advanced.AdvancedHelper.Guardian`; concrete cases in
  `Advanced.RefusedExample`, `Advanced.ConfirmedExample` and `Advanced.AbandonedExample`).
* *Resuming after a restart.* If the power fails after the helper was enabled and before its
  start was announced, the restart starts it, and from then on both `configure` and
  `prepare_remove` refuse without an effect (`Maintenance.Maintenance.GuardRefuses`,
  `Restart`, `StrandingExample`). No call strands the helper (`Configure`, `PrepareRemove`),
  so without a restart in that window the guard never refuses (`AnyHistory`).
* *Loading a torn journal.* The attempt journal refuses every further load exactly when a
  crash left a torn pending or archived file (`AttemptJournal.Attempt.Load`); a file that
  lacks only its final newline still parses and is used as pending, but not as an archive copy.

## Model

| member | source | states |
|---|---|---|
| `Framing.FromMagicInverts` | src/hccast_wired/protocol.py:33-54 | Every command is found again from its own magic bytes; the enumeration is injective on the wire. |
| `Framing.DecodeWritesBack` | src/hccast_wired/protocol.py:149-163 | Re-encoding a frame that was read from the wire gives back exactly the bytes it was read from, unknown commands included. |
| `Framing.EncodeReadsBack` | src/hccast_wired/protocol.py:66-79 | A canonical frame, encoded and followed by anything, is read back as itself; an unknown command must carry a raw word that is no known magic. |
| `Framing.ParseSplits` | src/hccast_wired/protocol.py:134-190 | Parsing a prefix and then feeding the rest parses the whole: the trace of drops and frames, the buffer and the flag agree. |
| `Framing.ChunkIndependence` | src/hccast_wired/protocol.py:134-190 | For every stream, corrupt or not, and every split into feeds, the result is that of one single feed. |
| `Framing.StreamAccounted` | src/hccast_wired/protocol.py:134-190 | The stream is the in-order interleaving of the discarded octets and the frames' encodings, followed by the buffer; nothing is lost or invented. |
| `Framing.ParseResyncsExactly` | src/hccast_wired/protocol.py:170-190 | While resynchronising an octet is dropped only where no plausible length with a known magic starts, and a frame is taken at the first place where one does. |
| `Framing.ParseSettles` | src/hccast_wired/protocol.py:134-190 | Between feeds the parser cannot go further, and resynchronising means exactly 15 buffered octets. |
| `Framing.FramesRoundTrip` | src/hccast_wired/protocol.py:134-165 | Encodings of canonical frames, concatenated and split in any way, come out as exactly those frames with nothing discarded. |
| `Framing.SequenceCountsUp` | src/hccast_wired/protocol.py:81-103 | The i-th built frame carries the start sequence plus i, modulo 2^32. |
| `Framing.CodecRoundTrip` | src/hccast_wired/protocol.py:81-111 | Whatever requests a codec encodes, any chunking of the stream gives those frames back, numbered in order, with zero discarded octets. |
| `Framing.FrameCodec.Build` | src/hccast_wired/protocol.py:91-102 | Builds the frame of the current sequence number and advances it modulo 2^32. |
| `Framing.FrameCodec.Encode` | src/hccast_wired/protocol.py:104-111 | Encodes the built frame, with both error cases of `to_bytes`: no raw word for an unknown command, and a length beyond 32 bits. |
| `Framing.FrameStreamParser.Feed` | src/hccast_wired/protocol.py:134-165 | The loop over a mutable buffer computes the whole-stream parse: frames, discarded count, buffer and flag; it terminates. |
| `Framing.FrameStreamParser.Resync` | src/hccast_wired/protocol.py:170-190 | Drops to the first candidate header, or keeps the last 15 octets. |
| `AnnexB.FindStartCode` | src/hccast_wired/annexb.py:20-30 | The index loop finds the leftmost three- or four-octet start code at or after `start`, or none exists. |
| `AnnexB.IterNals` | src/hccast_wired/annexb.py:48-95 | For every sequence of non-empty reads the loops yield the NALs of the concatenated stream; the lost-synchronisation error is unreachable. |
| `AnnexB.TakeNals` | src/hccast_wired/annexb.py:70-86 | The inner loop hands out exactly the pieces before the last start code of the buffer. |
| `AnnexB.CutAccounts` | src/hccast_wired/annexb.py:48-95 | Cutting loses nothing: the pieces concatenate to the stream from its first start code on. |
| `AnnexB.CutCutsAtCodes` | src/hccast_wired/annexb.py:48-95 | Every piece is cut at leftmost start codes, as ITU-T H.264 Annex B, section B.1, splits a byte stream. |
| `AnnexB.CutUnique` | src/hccast_wired/annexb.py:48-95 | That cutting is the only one with those properties. |
| `AnnexB.NalRoundTrip` | src/hccast_wired/annexb.py:48-95 | NALs that begin with a start code and contain no other, concatenated, are split into the same NALs. |
| `AnnexB.RaisesOnlyWithoutCode` | src/hccast_wired/annexb.py:88-95 | The missing-start-code error is raised exactly for non-empty input without a start code. |
| `AnnexB.StreamNalsTyped` | src/hccast_wired/annexb.py:33-45 | Every NAL that splitting yields has a readable type. |
| `AnnexB.UnitsAccount` | src/hccast_wired/annexb.py:98-123 | Grouping preserves the concatenation of the NALs. |
| `AnnexB.GroupsStartWithAud` | src/hccast_wired/annexb.py:98-123 | After the first access unit delimiter every group starts with one and contains no other. |
| `AnnexB.GroupsBeforeAud` | src/hccast_wired/annexb.py:98-123 | Before the first delimiter every NAL is a unit of its own. |
| `AnnexB.IterAccessUnits` | src/hccast_wired/annexb.py:98-123 | The accumulating loop yields exactly those units; it raises exactly when some NAL has no readable type, after the units before it. |
| `AnnexB.AccessUnitsOfStream` | src/hccast_wired/annexb.py:48-123 | Grouping what the splitting yields never fails half-way, and the units carry exactly its octets. |
| `Handshake.SeenIsFirst` | src/hccast_wired/live/backend.py:454-489 | If the marker is seen, it is at its first occurrence in the whole stream. |
| `Handshake.OccurrenceIsSeen` | src/hccast_wired/live/backend.py:454-489 | A first occurrence within the limit is never missed. |
| `Handshake.EarliestGrows` | src/hccast_wired/live/backend.py:454-489 | More input never moves the earliest possible start backwards. |
| `Handshake.VerdictIsFinal` | src/hccast_wired/live/backend.py:454-489 | A verdict of seen or too large does not change with more input. |
| `Handshake.RetainedSuffices` | src/hccast_wired/live/backend.py:454-489 | Keeping only the longest suffix that is a proper prefix of the marker loses no occurrence. |
| `Handshake.Find` | src/hccast_wired/live/backend.py:454-489 | Finds the first occurrence in the combined text, or none exists. |
| `Handshake.Border` | src/hccast_wired/live/backend.py:454-489 | Computes the length of the longest suffix that is a proper prefix of the marker. |
| `Handshake.HandshakeParser.FeedStdout` | src/hccast_wired/live/backend.py:454-489 | For every chunking the state is the verdict on the concatenated stream: marker seen, undecided, or too large exactly when its earliest possible start lies beyond the limit; the retained text stays shorter than the marker; after the marker, outcome and error are what the collected payload decodes to. |
| `Handshake.HandshakeParser.SeekMarker` | src/hccast_wired/live/backend.py:454-489 | One chunk of the search: what is retained, what is counted, and what remains for the payload. |
| `Handshake.HandshakeParser.StdoutEofReached` | src/hccast_wired/live/backend.py:491-497 | At end of output an unfinished handshake is an error, distinguished by how far it got. |
| `InstallTransaction.InstallFileTransaction.Write` | apps/panelbridge/packaging_tools/install_transaction.py:282-320 | With arbitrary outside edits, a write replaces only a value the journal accounts for; a conflicting value is left alone. |
| `InstallTransaction.InstallFileTransaction.Save` | apps/panelbridge/packaging_tools/install_transaction.py:390-397 | Every saved journal satisfies the record check, and saving is all or nothing. |
| `InstallTransaction.InstallFileTransaction.States` | apps/panelbridge/packaging_tools/install_transaction.py:419-426 | The scan reads exactly the journaled targets. |
| `InstallTransaction.InstallFileTransaction.Run` | apps/panelbridge/packaging_tools/install_transaction.py:434-465 | A conflict found by the scan leaves all targets untouched and names exactly the unrecognised ones; the plan never changes; without outside edits the call ends in its intent or crashes. |
| `InstallTransaction.InstallFileTransaction.Begin` | apps/panelbridge/packaging_tools/install_transaction.py:434-450 | The journal entry precedes every write, and its conflicts are exactly the targets whose scanned value is neither original nor applied. |
| `InstallTransaction.InstallFileTransaction.Carry` | apps/panelbridge/packaging_tools/install_transaction.py:451-465 | The write loop: with any outside edits, what it replaces is exactly each target that the scan did not find at its desired value, in order, from the scanned value to the desired one. |
| `InstallTransaction.InstallFileTransaction.Apply` | apps/panelbridge/packaging_tools/install_transaction.py:467-495 | Undisturbed and uninterrupted it ends with every target applied, exactly for a first valid plan whose expectations the originals meet and for the recorded plan repeated or resumed; it is refused, with no effect, exactly for an invalid plan, without one, for a different one, and while a restore is unfinished. |
| `InstallTransaction.InstallFileTransaction.Plan` | apps/panelbridge/packaging_tools/install_transaction.py:475-486 | The first apply records the originals as they are, and conflicts are exactly the targets that were read other than the caller expects. |
| `InstallTransaction.InstallFileTransaction.Restore` | apps/panelbridge/packaging_tools/install_transaction.py:497-505 | Uninterrupted it puts every file back to what it was before the first call ever. |
| `InstallTransaction.InstallFileTransaction.Status` | apps/panelbridge/packaging_tools/install_transaction.py:507-518 | Reports the phase and, with any outside edits, exactly the targets whose value as read the journal does not account for, changing nothing. |
| `InstallTransaction.InstallFileTransaction.AnyHistory` | apps/panelbridge/packaging_tools/install_transaction.py:434-505 | Any sequence of applies and restores, crashed anywhere, keeps the invariant, and one uninterrupted restore undoes all of it. |
| `InstallTransaction.InstallFileTransaction.AnyApplies` | apps/panelbridge/packaging_tools/install_transaction.py:434-495 | However often a first plan is applied and crashes, one uninterrupted repetition leaves every target as planned and the others as they were. |
| `Supervisor.MergeAppend` | src/hccast_wired/live/supervisor.py:195-205 | Merging cleanup results is associative: one more result merges at the end. |
| `Supervisor.MergeSucceeds` | src/hccast_wired/live/supervisor.py:195-205 | A merge succeeds exactly when all merged results did, and then carries no errors. |
| `Supervisor.AlwaysInv` | src/hccast_wired/live/supervisor.py:279-629 | The protocol invariant holds after every interleaving of worker steps, client calls, environment outcomes and attempt events. |
| `Supervisor.StartStep` | src/hccast_wired/live/supervisor.py:552-566 | An attempt starts clean, on the current non-STOPPED configuration and generation, installed and not interrupted. |
| `Supervisor.OnlyStartsRun` | src/hccast_wired/live/supervisor.py:418-608 | Nothing but that start makes the worker run an attempt. |
| `Supervisor.AttemptsStartClean` | src/hccast_wired/live/supervisor.py:418-608 | In every history, between two starts a check of the previous cleanup and of a fresh reconcile succeeded. |
| `Supervisor.InstalledStaleIsInterrupted` | src/hccast_wired/live/supervisor.py:279-348 | In every history, whenever an attempt is installed while closing or after the generation moved on, its interrupt is set. |
| `Supervisor.StaleEventsIgnored` | src/hccast_wired/live/supervisor.py:610-629 | An event changes the status only from the installed attempt, in its own generation, while the supervisor is open, and changes nothing else. |
| `Supervisor.ClosedIsFinal` | src/hccast_wired/live/supervisor.py:662-679 | The closed result is written once. |
| `Supervisor.CloseIsHonest` | src/hccast_wired/live/supervisor.py:356-461 | Every `close` returns that result; success means that every cleanup result still owed succeeded, and the result is their merge, without errors. |
| `Supervisor.ClosingTerminates` | src/hccast_wired/live/supervisor.py:356-461 | Once closing, each worker step lowers a rank of at most eight, with at most one attempt's return and at most two reconciles, and the worker is never stuck. |
| `Supervisor.ClosingAction` | src/hccast_wired/live/supervisor.py:356-461 | No action reopens a closing supervisor; only worker steps move the worker, and they lower the rank. |
| `Supervisor.DyingTerminates` | src/hccast_wired/live/supervisor.py:397-416 | A dying worker lowers the rank too. |
| `Supervisor.ExitPublishes` | src/hccast_wired/live/supervisor.py:397-461 | A worker that exits has published a closed result, unless its own failure handler died. |
| `Supervisor.OnlyFittingStepsCount` | src/hccast_wired/live/supervisor.py:418-608 | A step that the worker's position does not allow changes nothing. |
| `AptPlan.InspectInstallPlan` | apps/panelbridge/packaging_tools/apt_plan.py:117-230 | The one-pass loop accepts exactly the texts of the line grammar, with the plan they announce. |
| `AptPlan.ReadEarly` | apps/panelbridge/packaging_tools/apt_plan.py:155-198 | A line before the summary is accepted exactly when it fits what came before, with its effect on the lists. |
| `AptPlan.AddEntries` | apps/panelbridge/packaging_tools/apt_plan.py:162-168 | Package list entries are accepted exactly when well-formed and new to their list. |
| `AptPlan.AcceptedMeans` | apps/panelbridge/packaging_tools/apt_plan.py:200-230 | An accepted text has one summary, the announced number of distinct additions within policy, each `Conf` once and after its matching `Inst`, each `Inst` configured, PanelBridge at the expected version. |
| `AptPlan.ListsMean` | apps/panelbridge/packaging_tools/apt_plan.py:219-229 | Every printed list, read off the lines under its header, agrees with the additions, and no more packages are kept back than the summary says. |
| `AptPlan.ConfMatches` | apps/panelbridge/packaging_tools/apt_plan.py:213-217 | A `Conf` matches the only `Inst` of its name in full, and that one stands before it. |
| `AptPlan.RenderedIsAccepted` | apps/panelbridge/packaging_tools/apt_plan.py:117-230 | Rendering any plan within bounds in canonical order is accepted and returns that plan. |
| `AptPlan.AcceptedRoundTrip` | apps/panelbridge/packaging_tools/apt_plan.py:117-230 | The plan of every accepted text survives rendering. |
| `PackageState.CompleteMeans` | apps/panelbridge/packaging/installer-bootstrap.py:860-879 | The relation is complete exactly when the inventory is the baseline plus exactly the planned additions, each fully installed at its version. |
| `PackageState.AcceptedIsValid` | apps/panelbridge/packaging/installer-bootstrap.py:674-689 | Whatever additions the simulation's inspection accepts, the attempt's journal accepts. |
| `AttemptJournal.PhasesClimb` | apps/panelbridge/packaging/installer-bootstrap.py:692-697 | Along the committed chain the phase never decreases and rises by at most one per revision; baseline and plan stay. |
| `AttemptJournal.LinkedHeads` | apps/panelbridge/packaging/installer-bootstrap.py:700-722 | A committed history with its archive passes every check of the load. |
| `AttemptJournal.HeadsExtend` | apps/panelbridge/packaging/installer-bootstrap.py:730-740 | A checked pending record heads the chain of the record it follows. |
| `AttemptJournal.Attempt.Archive` | apps/panelbridge/packaging/installer-bootstrap.py:623-629 | Writes a revision once; an existing copy must be identical; a failure leaves it absent, torn or complete. |
| `AttemptJournal.Attempt.CheckChain` | apps/panelbridge/packaging/installer-bootstrap.py:710-722 | The downward loop accepts exactly a complete chain whose adjacent pairs all fit. |
| `AttemptJournal.Attempt.Load` | apps/panelbridge/packaging/installer-bootstrap.py:700-740 | From any stage, what it returns heads a complete archived chain; after any crash it returns the last or the pending record, and refuses exactly when a torn file was left; it fails itself only on less power than two durable steps. |
| `AttemptJournal.Attempt.Recover` | apps/panelbridge/packaging/installer-bootstrap.py:728-740 | The pending record takes the current one's place only when it follows it. |
| `AttemptJournal.Attempt.Save` | apps/panelbridge/packaging/installer-bootstrap.py:743-758 | Commits the record under the next revision; whatever else it leaves behind is what was pending or the same record; with nothing pending it refuses exactly a torn archive, a record that does not follow, or one that is too large. |
| `AttemptJournal.Attempt.Install` | apps/panelbridge/packaging/installer-bootstrap.py:956-964 | Calling it needs: no earlier package transaction, a committed `package_transaction_started` revision, and an inventory and a plan looked at again after the revision before. |
| `AttemptJournal.Attempt.Transact` | apps/panelbridge/packaging/installer-bootstrap.py:934-955 | From an unchanged inventory, as just looked at, and an accepted plan to a committed started phase with the transaction issued; otherwise nothing was issued, or it was issued once on these packages and the recorded plan and failed. |
| `AttemptJournal.Attempt.Commence` | apps/panelbridge/packaging/installer-bootstrap.py:956-971 | The recheck, the started revision and the transaction, in this order; what it returns are the packages as looked at afterwards. |
| `AttemptJournal.Attempt.Configure` | apps/panelbridge/packaging/installer-bootstrap.py:972-998 | Phases from installed on are committed only after the last look at the packages found the planned ones complete; the inventory that shows it is one that was really looked at. |
| `AttemptJournal.Attempt.Execute` | apps/panelbridge/packaging/installer-bootstrap.py:913-1005 | Keeps all invariants whether it completes, fails or dies; completing means the last phase is committed. With room for the revisions and nobody interfering it completes from every phase: on a fresh or unchanged machine whose package manager carries out its plan, or on one whose planned packages are complete. |
| `AttemptJournal.Attempt.Run` | apps/panelbridge/packaging/installer-bootstrap.py:1008-1036 | One start of the installer: it resumes what the journal holds, refuses what it cannot load, and completes where the execution does. |
| `AttemptJournal.Attempt.AnyHistory` | apps/panelbridge/packaging/installer-bootstrap.py:913-1005 | However often the installer is started and wherever it fails, the package transaction is issued at most once, with the recorded baseline and plan. |
| `Advanced.OverdueLeftRunning` | apps/panelbridge/helper/advanced.py:559-604 | From the end of its time on, a guardian call leaves a trial active or confirmed exactly where the host's facts are refused, or in a later, verified, normal boot that is not at the stock frequency or not healthy. |
| `Advanced.PastRecordedDeadline` | apps/panelbridge/helper/advanced.py:559-604 | From the recorded deadline on, exactly in those cases or when it is confirmed, undisturbed in its own boot and within four hours of its start. |
| `Advanced.AbandonedExample` | apps/panelbridge/helper/advanced.py:544-549 | A concrete trial at its deadline that stays active in a healthy later boot. |
| `Advanced.RefusedExample` | apps/panelbridge/helper/advanced.py:559-561 | A concrete trial whose rollback its deadline requests, unless the facts are refused. |
| `Advanced.ConfirmedExample` | apps/panelbridge/helper/advanced.py:600-603 | A concrete confirmed trial that goes on far beyond its recorded deadline. |
| `Advanced.RunsOnlyMatched` | apps/panelbridge/helper/advanced.py:576-599 | A trial goes on or starts only in its own boot, as staged, verified and healthy; otherwise only where the facts are refused or it is abandoned. |
| `Advanced.AdvancedHelper.Save` | apps/panelbridge/helper/advanced.py:295-300 | Every record saved is one that loading accepts. |
| `Advanced.AdvancedHelper.RestoreCpu` | apps/panelbridge/helper/advanced.py:342-362 | In the transaction's boot it ends with the policy found before the first unrestored call, or leaves a foreign value alone and writes nothing; in a later boot it closes the record and writes nothing. On obeying hardware a still, uninterrupted call always restores what is owned and readable, refuses exactly a foreign field, and in a later boot always closes. |
| `Advanced.AdvancedHelper.SetCpu` | apps/panelbridge/helper/advanced.py:364-397 | A chain of calls keeps the first baseline; success means the settings are in effect; a failed call that could be undone is undone; on obeying hardware a still, uninterrupted call succeeds exactly in a stock boot outside safe mode, without a trial, with settings on offer and no foreign change in between. |
| `Advanced.AdvancedHelper.StartTrial` | apps/panelbridge/helper/advanced.py:432-487 | A trial starts only, and uninterrupted always, from a ready, healthy, verified stock boot with nothing in the way of its files, at most one step above the confirmed frequency; both files are then in place. |
| `Advanced.AdvancedHelper.Rollback` | apps/panelbridge/helper/advanced.py:518-553 | An uninterrupted retreat ends as the retreat function says, with the ordinary reboot requested where it needs one; a trial is closed only in a verified, healthy, normal stock boot; an open CPU transaction is restored first; an edited trial file stays and is reported. |
| `Advanced.AdvancedHelper.Guardian` | apps/panelbridge/helper/advanced.py:559-604 | A successful call leaves a trial running only in its boot and before its time is over; a still, uninterrupted one leaves it exactly as the decision function says, and past its recorded deadline, or its time, running exactly in the cases above; without a trial it restores or closes a CPU transaction that broke off, and leaves any other alone. |
| `Advanced.AdvancedHelper.ConfirmTrial` | apps/panelbridge/helper/advanced.py:606-624 | Confirms only, and uninterrupted always, the active trial of this verified and healthy boot, by its identity, in time and visibly, and raises the profile to exactly its frequency. |
| `Advanced.AdvancedHelper.SetSafeMode` | apps/panelbridge/helper/advanced.py:626-630 | After a successful call no trial is running; a still, uninterrupted call sets safe mode and retreats as the retreat function says. |
| `Advanced.AdvancedHelper.Bounded` | apps/panelbridge/helper/advanced.py:432-470 | Whatever crashed and rebooted, the trial frequency is within 2700 and 2400 + 50 for each confirmation so far and one more; no normal reboot is issued twice. |
| `Advanced.AdvancedHelper.AnyHistory` | apps/panelbridge/helper/advanced.py:208-640 | All of this after any calls, failing anywhere, with restarts in between. |
| `ManagedText.RemovalKeepsEdits` | apps/panelbridge/packaging_tools/desktop_setup.py:73-82 | Around a block that counts as managed, removing it leaves exactly what stands before and after. |
| `ManagedText.AppendedIsManaged` | apps/panelbridge/packaging_tools/desktop_setup.py:73-82 | A block appended to an unmarked original counts as managed, and is removed again to the original, exactly when the original does not end in the end mark without its newline. |
| `ManagedText.StraddlingExample` | apps/panelbridge/packaging_tools/desktop_setup.py:381-384 | Such an original: accepted by install, not restorable by uninstall. |
| `ManagedText.CountFirst` | apps/panelbridge/packaging_tools/desktop_setup.py:78-80 | What Python's non-overlapping count of one means. |
| `Desktop.AppliedRestores` | apps/panelbridge/packaging_tools/desktop_setup.py:73-82 | Restoring the applied content gives the original back in exactly those cases, and is refused in the others. |
| `Desktop.EditsSurvive` | apps/panelbridge/packaging_tools/desktop_setup.py:73-82 | What a user wrote around the managed block survives its removal; a file that did not exist disappears when nothing remains. |
| `Desktop.MovesSound` | apps/panelbridge/packaging_tools/desktop_setup.py:535-541 | The restoration targets saved before any change are accepted on loading. |
| `Desktop.ExtendSound` | apps/panelbridge/packaging_tools/desktop_setup.py:499-516 | So is the record after an upgrade of the autostart file. |
| `Desktop.DesktopSetup.Install` | apps/panelbridge/packaging_tools/desktop_setup.py:478-523 | Without concurrent edits it keeps every file at its original or applied content wherever it dies, and a conflict changes no file. A first installation is refused exactly where a file is unreadable, marked, too large or a foreign autostart file, or the environment chooses a backend, and otherwise leaves every file with its block; one that has begun is brought to its end unless the autostart file to be added is not acceptable. |
| `Desktop.DesktopSetup.Upgrade` | apps/panelbridge/packaging_tools/desktop_setup.py:499-516 | Adding or renewing the autostart file keeps the first originals and leaves every file as it was; it succeeds exactly where the plan has no conflict and an added file is acceptable. |
| `Desktop.DesktopSetup.Apply` | apps/panelbridge/packaging_tools/desktop_setup.py:517-523 | The plan's writes take every file to its applied content, exactly where every file is readable and without conflict; the others stay as they are. |
| `Desktop.DesktopSetup.Uninstall` | apps/panelbridge/packaging_tools/desktop_setup.py:525-547 | Restores every file as its current content, or the announced target, says, whatever users edited before; uninterrupted it ends in a conflict, changing nothing, exactly when some file cannot be restored. After an undisturbed installation that is exactly when an original ends in the end mark without its newline, and otherwise every file ends as its original. |
| `Desktop.DesktopSetup.Announce` | apps/panelbridge/packaging_tools/desktop_setup.py:533-541 | The complete restoration targets are journaled before any change. |
| `Desktop.DesktopSetup.WriteBack` | apps/panelbridge/packaging_tools/desktop_setup.py:542-544 | Every file ends at its restoration target. |
| `Desktop.DesktopSetup.AnyHistory` | apps/panelbridge/packaging_tools/desktop_setup.py:478-547 | Installs and uninstalls dying anywhere, then one uninterrupted uninstall: the files are those of the beginning. |
| `Maintenance.Maintenance.Save` | apps/panelbridge/packaging_tools/maintenance.py:523-530 | Every saved journal passes its own validation. |
| `Maintenance.Maintenance.Step` | apps/panelbridge/packaging_tools/maintenance.py:532-542 | An operation is announced before it takes effect, and the journal is never behind the system. |
| `Maintenance.Maintenance.Operate` | apps/panelbridge/packaging_tools/maintenance.py:532-542 | Whether it fails before or after taking effect, the system stays announced. |
| `Maintenance.Maintenance.Rollback` | apps/panelbridge/packaging_tools/maintenance.py:601-617 | What was started is undone, in the fixed order; resumed after any failure it ends in the operations and the system of an uninterrupted rollback; where nothing fails and the helper is not stranded it does end. |
| `Maintenance.Maintenance.Configure` | apps/panelbridge/packaging_tools/maintenance.py:619-669 | It ends configured with everything in effect, each operation once and in order, or reverted with everything undone, or says that reverting is still due; otherwise it had no effect. An unfinished rollback is resumed first. Where nothing fails it configures, reverts what is due, or refuses a removal. It never strands the helper. |
| `Maintenance.Maintenance.PrepareRemove` | apps/panelbridge/packaging_tools/maintenance.py:671-702 | It ends with everything undone, in the fixed order, or waiting for the desktop session with the user's configuration undone, or resumable; resumed it ends in the operations of an uninterrupted removal; where nothing fails it waits exactly while the session runs. It never strands the helper. |
| `Maintenance.Maintenance.Restart` | apps/panelbridge/packaging_tools/maintenance.py:595-599 | A restart strands the helper exactly between its enabling and the announcement of its start. |
| `Maintenance.Maintenance.GuardRefuses` | apps/panelbridge/packaging_tools/maintenance.py:595-599 | The ownership guard refuses exactly a stranded helper. |
| `Maintenance.Maintenance.StrandingExample` | apps/panelbridge/packaging_tools/maintenance.py:595-599 | A concrete state from which a restart strands the helper. |
| `Maintenance.Maintenance.AnyHistory` | apps/panelbridge/packaging_tools/maintenance.py:494-702 | Any calls failing anywhere, with restarts in between: rolled back or ready for removal means that everything is undone; unless a restart falls between the enabling and the announced start, the guard never refuses. |
| `Network.SinkAvailable` | apps/panelbridge/helper/network.py:68-92 | The cursor loop decides the subelement grammar of the Wi-Fi Display specification, section 5.1. |
| `Network.AvailableMeans` | apps/panelbridge/helper/network.py:68-92 | A sink is available exactly when the data is the encoding of subelements whose last device information says so. |
| `Network.NetworkHelper.Enter` | apps/panelbridge/helper/network.py:172-200 | One owner at a time; an expired lease is restored first; three failures block a new lease. |
| `Network.NetworkHelper.Discover` | apps/panelbridge/helper/network.py:212-248 | Ends discovered with an owner, or restored without one; every change of the network happens under a durable open record of the baseline; where nothing fails it succeeds exactly for whom a lease is open. |
| `Network.NetworkHelper.Prepare` | apps/panelbridge/helper/network.py:223-233 | The baseline is durable before the first change. |
| `Network.NetworkHelper.Collect` | apps/panelbridge/helper/network.py:236-241 | The candidates are exactly the valid peers among the first 64. |
| `Network.NetworkHelper.Connect` | apps/panelbridge/helper/network.py:250-287 | Only a fresh candidate that is still an available sink is activated, and where nothing fails it is connected; a failure is restored and counted, at most to three. |
| `Network.NetworkHelper.Activate` | apps/panelbridge/helper/network.py:257-273 | Activation needs the durable record naming the connection, a valid peer of the candidate's name, and a recovery path. |
| `Network.NetworkHelper.KeepAlive` | apps/panelbridge/helper/network.py:289-300 | Extends the running lease of its owner, or restores and leaves no owner. |
| `Network.NetworkHelper.Restore` | apps/panelbridge/helper/network.py:309-332 | Unless the process dies nobody holds the lease afterwards; a reported success means the baseline is back and the journal is closed; where nothing fails it succeeds. |
| `Network.NetworkHelper.Release` | apps/panelbridge/helper/network.py:334-346 | Refused exactly to others while there is an owner; success means idle, restored and no failures counted. |
| `Network.NetworkHelper.Expire` | apps/panelbridge/helper/network.py:348-355 | Releases exactly a lease past its deadline. |
| `Network.NetworkHelper.Recover` | apps/panelbridge/helper/network.py:357-364 | Restores whatever an earlier process left. |
| `Network.NetworkHelper.Restart` | apps/panelbridge/helper/network.py:138-150 | On whatever a process that died anywhere left, a new one is idle exactly on a closed journal, and asks for restoration otherwise. |
| `Network.NetworkHelper.AnyHistory` | apps/panelbridge/helper/network.py:136-364 | Over all interleavings, with the process dying in any step and starting again: an owner exactly when discovered or connected, idle only with the baseline and a closed journal, at most three failures. |

## Left out

- AttemptJournal.Attempt.Execute: host, account, lock, collision, repository and payload checks, and the maintenance journal's ownership check, are one arbitrary answer, because they read the machine.
- AttemptJournal.Attempt.Load: file ownership, modes, size limits (on saving an arbitrary predicate of the record), the reason text, and the selection of an attempt by the reference file are not modelled.
- Advanced.AdvancedHelper.StartTrial: alternate boot assets and the list of forbidden configuration directives are one observed flag, because the list is data; the boot identity is a number that never recurs.
- Advanced.AdvancedHelper.Save: the size limit and outside edits of the journal count as I/O errors, because both end the call the same way.
- Advanced.AdvancedHelper.Guardian: a call reads its clock once, and a retreat that closes the trial verifies the baseline and samples the health in one look.
- Desktop.DesktopSetup.Install: created directories, the pattern of an existing backend customisation (an arbitrary predicate of the environment's text) and the generation of the output layout are not modelled; a layout is any text without `#`, as the generator writes it.
- Desktop.ValidRecord: records of the first journal version and the stored digest are not modelled; a managed block is given by the text between its marks.
- Maintenance.Maintenance.Configure: account, session, idleness and enrollment receipt checks are arbitrary answers, because they read the machine; a failed helper unit is not distinguished from an inactive one.
- Maintenance.Maintenance.Rollback: resumed and uninterrupted rollbacks agree in operations and system but not in the user's receipt, which says whether there was anything left to restore.
- Network.NetworkHelper.Restore: a restoration that reports errors leaves the network changed if it was changed, because the backend's stages are foreign calls.
- Network.NetworkHelper.Enter: the operation lock is the order of the calls; a second caller's immediate refusal is not modelled.
- AptPlan.InspectInstallPlan: lines are given already matched against the patterns, without the limits on text size and line length and without the check for control bytes.
- InstallTransaction.InstallFileTransaction.Apply: directories and the flag for an absent configuration parent are not modelled, and nobody else writes the journal.
- Handshake.HandshakeParser.FeedStdout: decoding of the payload is an arbitrary function of the octets collected, because its result depends on chunk boundaries inside a character.
- Supervisor.AlwaysInv: persistence of the configuration, the wait strategies and the text of exceptions are not modelled; durations are whole numbers.
- Framing.FrameCodec.Build: `parse_setv` and the other payload builders are not modelled.
- Descriptor walks, locks, flushing, base64 and JSON text appear only as atomic replacement, exclusive creation and serialised calls.
- The lifecycle of `SubprocessAttempt`, the USB and FunctionFS drivers, the D-Bus services, the asyncio controllers, the native worker, calibration, evidence retention, icons, command lines and the user interface are not modelled: foreign calls or thresholds.
