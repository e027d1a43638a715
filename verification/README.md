# A verified model of the smply firmware-update client

smply updates the firmware of a Zephyr device over the Simple Management Protocol. This project models
its update state machine, the device side it is checked against, its request table, its serial link,
its stream reassembly and hashing, and its codecs, in Dafny 4.11, and proves what these promise.

- **The update.** `UpdateTypes`, `UpdateMachine` (the decisions), `UpdateInvariant` and `UpdateSteps` (what
  each decision keeps and may do), `UpdateRuns` and `UpdateTheorems` (whole runs). What each answer leads to, stated
  without the decisions: `UpdateRows` (what a table says), `UpdateVerdicts` (the tables read), `UpdateAnswers`
  (failures and other answers), `UpdatePlanning`, `UpdateRefusals`, `UpdateApproval`, `UpdateRecord` and `UpdateClock`
  (what is kept, handed out, timed and summed up). `UpdateRecovery`, `UpdateFinalTable`, `UpdateJudged` and
  `UpdateStaging` (exact conditions and evidence over runs), `UpdateScenarios` and `UpdatePath` (runs built
  event by event), `UpdateMachineClass` (the machine and its driver's loop, changing their fields in place).
  A run is any sequence of events in which the driver answers only the request that is outstanding; ticks and
  cancellation may come at any time.
- **The device.** `Tlv` (the two image readers), `TlvExact` (what the strict one makes of any file), `BootModel`,
  `BootTheorems`, `BootInstalls` and `BootProgress` (boots, requests, listings and reads case by case) and
  `BootDeviceClass`.
- **Both together.** `LoopDevice` and `ClosedLoop`: the machine drives the device, any answer may be lost or
  replaced by a failure at any time, and a request may be carried out long after it was given up. `LoopPath` and
  `LoopCompletes` build a trace that completes.
- **Requests.** `SmpClient` (the table), `SmpRuns` (whole lives of a client as a stack of interrupted calls, so
  that a callback may call back in anywhere), `SmpDelivery` (what each step and each whole call has done to the table,
  the queue and the callbacks), `SmpDestruction` (what becomes of requests issued while the client is
  destroyed), `SmpClientClass` (the table changed in place).
- **The serial link.** `Crc16`, `Base64`, `SerialFraming`, `SerialLink`, `SerialSound` (only what arrived whole is
  handed out), and `SerialClasses` for the stateful framer, splitter and deframer.
- **Streams and codecs.** `Assembler`, `Sha256` with `Sha256Constants`, `Sha256Rounds` and `Sha256Examples`, `Cbor` and
  `CborGrammar`, `Crc32`, `Zip` and `ZipIntegrity`, `WireExamples` (known answers); `Common` holds octets and numbers.

Loops and objects of the original are methods and classes here, each proved against a function on values;
the theorems are about those functions. `dafny verify dfyconfig.toml` checks everything.

Five statements one might expect are false of the code. For each there is an input that shows it and a
theorem that says exactly when it holds:

- Base64 text that is accepted does not always encode back to itself: `Base64.EncodeDecode` holds exactly if the
  pad bits are zero, and `Base64.PadBitsIgnored` gives text for which they are not.
- Destruction does not deliver every request. `SmpRuns.DestructionDelivers` covers those issued before the table
  began to be failed, `SmpDestruction.LateRequestDelivered` says which of the later ones are delivered, and
  `SmpRuns.LateRequestIsLost` gives a life in which one is not.
- A refused mark is recovered from neither once per update (`UpdateScenarios.TwoRecoveries`) nor, as the comment at
  `src/dfu/update_state_machine.cpp:66-69` says, once for each target (`UpdateScenarios.RecoveryDenied`).
  `UpdateRecovery.RetriedExactly` says when it is.
- The table a completed update reports need not show the client images kept
  (`UpdateFinalTable.CompletesWithoutClients`). `UpdateFinalTable.FinalTableExactly` says for which packages and
  plans it does.
- Not every command is sent with the refusal checks made: a confirm is not, if the image is found on trial at the
  outset (`UpdateRefusals.ConfirmUnchecked`). `UpdateRefusals.ConfirmCovered` says in which runs they were made, and
  `UpdateRefusals.OnlyPermittedIsSent` covers every other command.

## Model

| member | source | states |
|---|---|---|
| `ClosedLoop.NoHalfPackage` | src/dfu/update_state_machine.cpp:374-407 | over every run of the machine against the device, with any answer lost, any failure delivered instead, and any request carried out long after it was given up: the client image is kept for good only if the device applied its own image and runs it, and once rebooted without that, the next reboot brings back the client image's old content |
| `ClosedLoop.CompletedOnDevice` | src/dfu/update_state_machine.cpp:1137-1141 | an update reported as completed is completed on the device: both images run their targets and nothing is scheduled for either |
| `LoopCompletes.SomeTraceCompletes` | src/dfu/update_state_machine.cpp:916-1147 | for any two targets and any obliging device there is a lawful trace, from the first question to the last read, that completes the update with both images on their targets and kept |
| `UpdateStaging.ResetOnEvidence` | src/dfu/update_state_machine.cpp:506-675 | over every run of an update of several images, the reset is outstanding only with evidence of each: its mark was answered, or a table of the run showed it scheduled or running |
| `ClosedLoop.RequestKeeps` | support/boot_model/boot_model.cpp:144-380 | a request that names a target, a confirm only with both running, keeps a sound device sound whenever it is carried out, before the reboot or after |
| `LoopDevice.LateMarkKeeps` | support/boot_model/boot_model.cpp:144-248 | a mark carried out only after the reboot leaves the client image alone and takes nothing away that is known of the device |
| `LoopPath.ListingExact` | support/boot_model/boot_model.cpp:388-438 | the table a device gives shows a target running, kept or present exactly if its slots hold it so |
| `ClosedLoop.ReachedSound` | support/boot_model/boot_model.cpp:144-380 | every reachable state of machine and device together is sound: each table the machine acted on is true of the device, and an outstanding confirm comes only once both images run their targets |
| `LoopDevice.ReadKeeps` | support/boot_model/boot_model.cpp:337-386 | a state read, with one step of apply or commit, keeps what is known of the device, and whatever was already true of the images stays true |
| `LoopDevice.MarkKeeps` | support/boot_model/boot_model.cpp:144-248 | marking any hash for test before the reboot leaves both images running what they ran, and an accepted mark of the client image stands |
| `LoopDevice.ConfirmKeeps` | support/boot_model/boot_model.cpp:144-248 | confirming the client image while both run their targets is accepted and ends its trial |
| `LoopDevice.RestartKeeps` | support/boot_model/boot_model.cpp:250-311 | the reboot starts the client image's trial and the device image's apply, from any sound state in which the client image is marked |
| `LoopDevice.NoHalf` | support/boot_model/boot_model.cpp:250-378 | a sound device never holds half a package: a client target no longer on trial implies an applied device target, and a missing device target implies that the next reboot reverts |
| `UpdateRuns.RunGood` | src/dfu/update_state_machine.cpp:916-1192 | every state of every run in which the driver answers only what is outstanding satisfies the invariant that ties the state to the outstanding request, the timers, the current index and the report |
| `UpdateRuns.TerminalAbsorbs` | src/dfu/update_state_machine.cpp:1137-1141 | an ended update absorbs every event, expected or not: no field changes and nothing is asked for |
| `UpdateInvariant.DecideKept` | src/dfu/update_state_machine.cpp:916-1147 | one decision on any answer to the outstanding request keeps the invariant, never runs into the internal error, and leaves a request that the new state explains |
| `UpdateInvariant.PlanFromKept` | src/dfu/update_state_machine.cpp:591-653 | the planner's loop keeps the invariant from any current index |
| `UpdateInvariant.InspectBootKept` | src/dfu/update_state_machine.cpp:444-487 | judging the table after the reset keeps the invariant whatever the table shows |
| `UpdateSteps.DecideTransition` | src/dfu/update_state_machine.cpp:916-1147 | every decision keeps its frame (what it may not touch), its course (which states may follow) and its grounds (the table that entitles it to complete, confirm or end a wait) |
| `UpdateTheorems.FinishOnce` | src/dfu/update_state_machine.cpp:1167-1192 | over every run Finish is emitted exactly once if the update has ended and never before |
| `UpdateTheorems.EndedForGood` | src/dfu/update_state_machine.cpp:1137-1141 | once ended, state, context, timers and report are the same however the run continues |
| `UpdateTheorems.InternalOnlyFromDriver` | src/dfu/update_state_machine.cpp:1146-1147 | no run fails with the internal error unless the driver itself delivered that error |
| `UpdateTheorems.CompletedIsTrue` | src/dfu/update_state_machine.cpp:337-365 | a completed update reports the last table read; it shows every device image active on its target and confirmed, and some table of the run showed the same of every client image, unless the recorded mode is direct-XIP without revert |
| `UpdateFinalTable.FinalTableExactly` | src/dfu/update_state_machine.cpp:1077-1085 | outside upload-only and direct-XIP, the reported table of every completed run is sure to show all client images kept exactly if no target is the device's, or none is the client's, or the timeout leaves no room for a read while waiting |
| `UpdateFinalTable.CompletesWithoutClients` | src/dfu/update_state_machine.cpp:337-365 | for every other package and plan, a run that completes on a table in which no client image runs its target |
| `UpdateTheorems.SettledOnEvidence` | src/dfu/update_state_machine.cpp:1115-1131 | in every state where nothing is owed to the client images, some table of the run showed them all active on their targets and confirmed |
| `UpdateTheorems.DeviceIsLastTable` | src/dfu/update_state_machine.cpp:1167-1192 | the table the machine holds is always the last one delivered while it was running |
| `UpdateTheorems.NeverBlind` | src/dfu/update_state_machine.cpp:965-974 | past the first read the machine holds a table |
| `UpdateTheorems.UnjudgedResetReverts` | src/dfu/update_state_machine.cpp:96-104 | a run that ends after its reset and before the next table is judged ends failed or cancelled and reports a pending revert |
| `UpdateTheorems.TrialReverts` | src/dfu/update_state_machine.cpp:920-927 | a run that fails or is cancelled with an image still on trial reports a pending revert |
| `UpdateTheorems.ConfirmComesLast` | src/dfu/update_state_machine.cpp:298-305 | a confirm names an image whose target ran unconfirmed in the last table the boot was judged by, and is sent only after a judged table had every device image running its target |
| `UpdateTheorems.TrialsInBootTable` | src/dfu/update_state_machine.cpp:444-487 | while the update runs, an image on trial ran unconfirmed in the last table the boot was judged by |
| `UpdateTheorems.DevicesInApplyTable` | src/dfu/update_state_machine.cpp:374-407 | in the confirming states the last table judged by the wait for the device had every device image running its target |
| `UpdateJudged.TablesJudged` | src/dfu/update_state_machine.cpp:374-487 | past the reset, the recorded boot table is one on which the check after the boot decided in the run, and the recorded apply table one on which the wait for the device decided |
| `UpdateTheorems.NamesTheCurrent` | src/dfu/update_state_machine.cpp:790-828 | a mark or a confirm carries image and hash of the current target, which exists |
| `UpdateTheorems.RefusedRunSendsNothing` | src/dfu/update_state_machine.cpp:206-221 | a run that ends in a refusal has emitted no upload, mark, reset, forced reset or confirm |
| `UpdateTheorems.CommandsChecked` | src/dfu/update_state_machine.cpp:206-221 | a run that has emitted any command carries no refusal, and before the reset it has passed the refusal checks |
| `UpdateTheorems.UploadOnlySendsUploads` | src/dfu/update_state_machine.cpp:506-521 | an upload-only run never emits a mark, reset, forced reset or confirm |
| `UpdateTheorems.XipNeverMarks` | src/dfu/update_state_machine.cpp:164-168 | a run whose recorded mode is direct-XIP without revert has emitted no mark and no confirm |
| `UpdateTheorems.ResetOnce` | src/dfu/update_state_machine.cpp:506-521 | every run has at most one Reset, and after it the update is never staging again |
| `UpdateTheorems.ForceResetOnce` | src/dfu/update_state_machine.cpp:746-762 | every run has at most one ForceReset, exactly when its allowance is recorded as spent |
| `UpdateTheorems.RecoveriesIncrease` | src/dfu/update_state_machine.cpp:733-744 | the targets whose refused mark led to a reread are strictly increasing: at most one such recovery per target |
| `UpdateRecovery.RetriedExactly` | src/dfu/update_state_machine.cpp:733-744 | over every run, a refused mark leads to a new read exactly if the refusal is one a lost answer would explain and no mark was refused like that since the last mark answered, or since the start; otherwise that refusal ends the update |
| `UpdateRecovery.AllowanceTold` | src/dfu/update_state_machine.cpp:656-664 | over every run the allowance is spent exactly if such a refusal came since the last mark answered: planning past an image by itself does not give it back |
| `UpdateScenarios.TwoRecoveries` | src/dfu/update_state_machine.cpp:733-744 | a run with two recoveries, one for each of two images: the allowance is not one per update |
| `UpdateScenarios.RecoveryDenied` | src/dfu/update_state_machine.cpp:591-653 | a run in which the first refusal of the second image's mark ends the update although that image never had a recovery: nor is it one per image |
| `UpdateTheorems.ContinueAdvances` | src/dfu/update_state_machine.cpp:591-675 | a planning step that hands over to another planning step has moved to a later target, which exists |
| `UpdateTheorems.KeepTimeDeadline` | src/dfu/update_state_machine.cpp:860-899 | whatever the event, an unchanged wait phase keeps its deadline and a new one gets the timeout from now |
| `UpdateTheorems.DeadlineSurvives` | src/dfu/update_state_machine.cpp:860-899 | over every run, reconnects included, the apply deadline is the moment the current wait phase began plus the timeout |
| `UpdateTheorems.TickReadsInTime` | src/dfu/update_state_machine.cpp:835-858 | no read is asked for by a tick at or after the deadline |
| `UpdateTheorems.TimersArmedWhereAwaited` | src/dfu/update_state_machine.cpp:835-899 | at most one of the grace and poll deadlines is armed, each only in the state that waits on it, and a poll only under a deadline of the same phase |
| `UpdateRefusals.RefusalExactly` | src/dfu/update_state_machine.cpp:131-221 | the refusal checks answer with one refusal, or none, exactly on these grounds, written on the mode, the plan and the versions: the four modes without an update path; more than one image in the two modes that run in place; upgrade-only or plain direct-XIP unless the plan uploads only or accepts no revert; a target below the running version by major, minor, revision, if both sides want that refused |
| `UpdateRefusals.ChecksAnswered` | src/dfu/update_state_machine.cpp:206-221 | over every run the checks are made while planning, on the table held then, and their answer is the warranted one; a refusal ends the update, and if nothing is refused the same step sends the first command |
| `UpdateRefusals.OnlyPermittedIsSent` | src/dfu/update_state_machine.cpp:131-221 | a run that uploads, marks or resets has made the checks: its mode and number of images are permitted, and no target was below what the table held then showed running, if both sides wanted that refused |
| `UpdateRefusals.ConfirmCovered` | src/dfu/update_state_machine.cpp:591-606 | in a run that confirmed, the checks were made exactly if the run also uploaded, marked or reset |
| `UpdateRefusals.ConfirmUnchecked` | src/dfu/update_state_machine.cpp:591-606 | a run that confirms an image found on trial on a device whose mode has no update path, with no checks made |
| `UpdateRows.RowsRead` | src/dfu/update_state_machine.cpp:224-282 | what the decisions look up in a table is what its rows say: the first row that runs the image, the first that carries the file, anything scheduled |
| `UpdateVerdicts.TableRules` | src/dfu/update_state_machine.cpp:337-487 | over every run, what each table read after an upload, after the reset, after the confirms or while waiting leads to, stated on its rows: which image has strayed, was rolled back or abandoned, what is reported of each, what is waited for, whether a confirm is owed, and when the update completes |
| `UpdateAnswers.FailureRules` | src/dfu/update_state_machine.cpp:916-1147 | over every run, what a failure leads to in each state, by its code and the number the device gave: looked into, retried, forced, waited out, reread, or the end with that failure as the cause and a revert announced if a swap is scheduled |
| `UpdateAnswers.AnswerRules` | src/dfu/update_state_machine.cpp:916-1147 | over every run, what an answer that is neither a table nor a failure leads to; a cancel ends the update and announces the revert |
| `UpdateAnswers.MarkRules` | src/dfu/update_state_machine.cpp:656-676 | an answered mark leads to the next image, and behind the last one to the reset |
| `UpdateAnswers.ConfirmsInOrder` | src/dfu/update_state_machine.cpp:1087-1113 | an answered confirm is followed by the confirm of the next image on trial, and the last by a read |
| `UpdateRecord.ToldByEvents` | src/dfu/update_state_machine.cpp:916-1147 | over every run the buffer size, the recorded mode and its source, the downgrade setting, the approval and the octets transferred for each image are those the events told, and each report names its target's image, committer and file, which is the build settled on |
| `UpdatePlanning.BuildByRows` | src/dfu/update_state_machine.cpp:533-589 | of two builds the one in its slot is chosen, of two in their slots the one that runs, and if none is, the one for the slot that does not run |
| `UpdatePlanning.BuildSettled` | src/dfu/update_state_machine.cpp:550-589 | a pair of builds is settled in the two modes that run in place and refused in every other |
| `UpdatePlanning.NeedByRows` | src/dfu/update_state_machine.cpp:611-652 | an image is skipped, marked or uploaded by whether the row that carries its file runs, is scheduled, or is merely there |
| `UpdatePlanning.PlanningRules` | src/dfu/update_state_machine.cpp:591-653 | over every run a planning step that finds a client image on trial at the outset judges the boot; any other stops at the first image that is not skipped, and uploads or marks it as its rows say, with the slot reported |
| `UpdateApproval.ConfirmedOnlyIfWanted` | src/dfu/update_state_machine.cpp:298-305 | over every run a confirm is sent only if the plan confirms at once or the application has approved |
| `UpdateApproval.AskedOnce` | src/dfu/update_state_machine.cpp:298-305 | over every run the application is asked at most once, and never if the plan confirms at once |
| `UpdateClock.UploadCarries` | src/dfu/update_state_machine.cpp:790-828 | an upload carries the current target, the build settled on, its image and the buffer size the device told |
| `UpdateClock.GraceTold` | src/dfu/update_state_machine.cpp:860-899 | the wait for the drop ends the grace period after the reset was accepted or its answer lost |
| `UpdateClock.PollTold` | src/dfu/update_state_machine.cpp:860-899 | while the device is waited for, the next look falls due one poll interval after the wait was last asked for, and at no other time is one due |
| `UpdateClock.TickRules` | src/dfu/update_state_machine.cpp:835-858 | over every run, what time leads to: a reconnect after the grace, a read when the poll is due before the deadline, a timeout when it is due after, and otherwise nothing |
| `UpdateClock.SummaryTold` | src/dfu/update_state_machine.cpp:678-694 | over every run the totals are those of the images: octets as the events told them, skipped if all are, rolled back if any is, the slot of the first |
| `UpdateClock.EndingTold` | src/dfu/update_state_machine.cpp:1167-1192 | an ended update reports its state, the file of its first image and the last table; one that has not ended reports none of them |
| `UpdateMachineClass.Machine.constructor` | src/dfu/update_state_machine.cpp:1151-1163 | a machine begins idle, with one report entry per target |
| `UpdateMachineClass.Machine.FindActive` | src/dfu/update_state_machine.cpp:224-234 | the search finds the first active slot of the image, or none |
| `UpdateMachineClass.Machine.FindHolder` | src/dfu/update_state_machine.cpp:257-268 | the search finds the first slot of the image that holds the target |
| `UpdateMachineClass.Machine.FindInTrial` | src/dfu/update_state_machine.cpp:284-296 | the search finds the next image on trial from an index on |
| `UpdateMachineClass.Machine.AwaitCommitStep` | src/dfu/update_state_machine.cpp:337-365 | the loop over the images, which rewrites reports in place and gives up on the first lost or failed one, is the specified decision |
| `UpdateMachineClass.Machine.AwaitDeviceStep` | src/dfu/update_state_machine.cpp:374-407 | the loop over the images waiting for the device is the specified decision |
| `UpdateMachineClass.Machine.JudgeAll` | src/dfu/update_state_machine.cpp:444-487 | judging image by image in place is judging all of them at once, and the two verdicts are those of some image |
| `UpdateMachineClass.Machine.InspectBootStep` | src/dfu/update_state_machine.cpp:444-487 | the whole check after the reset is the specified decision |
| `UpdateMachineClass.Machine.ChooseBuildStep` | src/dfu/update_state_machine.cpp:550-589 | choosing between two builds in place is the specified choice, or its failure |
| `UpdateMachineClass.Machine.PlanLoop` | src/dfu/update_state_machine.cpp:591-653 | the loop that works through the images until one needs something is the specified decision |
| `UpdateMachineClass.Machine.DecideStep` | src/dfu/update_state_machine.cpp:916-1147 | every branch of every state, run in place, is the specified decision |
| `UpdateMachineClass.Machine.ConfirmVerifiedStep` | src/dfu/update_state_machine.cpp:1115-1131 | the check of the confirmed table, and the wait for the device after it, in place |
| `UpdateMachineClass.Machine.Summarise` | src/dfu/update_state_machine.cpp:678-694 | the loop that sums the images up computes the specified summary |
| `UpdateMachineClass.Machine.Apply` | src/dfu/update_state_machine.cpp:1167-1192 | one event in place - guard, decide, sum up, complete the report, keep the deadlines - is one step of the specification |
| `UpdateMachineClass.Machine.Dispatch` | src/dfu/firmware_updater.cpp:329-351 | the driver's loop ends, because every further planning step is about a later target, and leaves a request outstanding that the invariant explains |
| `UpdateMachineClass.PlanningAdvances` | src/dfu/firmware_updater.cpp:329-351 | from every reachable planning state the next planning step either asks for something or is about a strictly later target |
| `BootTheorems.RebootPermutes` | support/boot_model/boot_model.cpp:250-311 | under swap with revert and no downgrade prevention, a reboot exchanges exactly the pairs whose swap is due (a device image marked for test is not) and keeps the two contents of every pair |
| `BootTheorems.ContentsConserved` | support/boot_model/boot_model.cpp:144-380 | whatever is read or set and however often the device reboots, each pair keeps its two contents |
| `BootTheorems.RequestKeepsPair` | support/boot_model/boot_model.cpp:178-248 | while a client pair is marked or on trial no request changes it, except an accepted confirm of its active slot |
| `BootTheorems.TrialIsUndone` | support/boot_model/boot_model.cpp:144-311 | mark, anything, reboot, anything without an accepted confirm of the active slot, reboot: the client pair is exactly what it was, with nothing scheduled, unless it is a downgrade the bootloader refuses |
| `BootTheorems.ConfirmedTrialStays` | support/boot_model/boot_model.cpp:178-248 | an accepted confirm of a trial's active slot ends the trial, and later reboots keep it |
| `BootTheorems.RunningTrialConfirms` | support/boot_model/boot_model.cpp:144-171 | a confirm of the running image's trial, without a hash or with its own, is accepted, because its slot is searched first |
| `BootTheorems.XipTrialIsUndone` | support/boot_model/boot_model.cpp:507-625 | a one-boot direct-XIP trial that nobody confirms ends with the old slot running its old content and the trial's slot erased |
| `BootInstalls.OverwriteInstalls` | support/boot_model/boot_model.cpp:258-277 | an overwriting bootloader installs a scheduled client image for good: it is the only one, nothing is scheduled, and no request and no reboot changes that |
| `BootInstalls.DowngradeErased` | support/boot_model/boot_model.cpp:447-473 | under downgrade prevention a scheduled client image with a lower version, by the header octets of major, minor and revision, is erased, the old one runs on, and nothing ever changes that |
| `BootInstalls.OtherwiseAsWithout` | support/boot_model/boot_model.cpp:447-459 | any other pair boots as it would without downgrade prevention |
| `BootInstalls.SetStateByCase` | support/boot_model/boot_model.cpp:178-248 | what a request about a slot is answered and what it changes, for every schedule, slot and configuration |
| `BootInstalls.XipBootsByCase` | support/boot_model/boot_model.cpp:507-595 | which slot runs in place after a reboot and whether on trial: the other one if it is bootable and what runs is no image, older, or as old and higher up, and with revert only if it is marked; a trial falls back |
| `BootProgress.XipFallsBack` | support/boot_model/boot_model.cpp:578-595 | a trial in place that falls back leaves its slot erased and unmarked and the other as it was |
| `BootProgress.XipSetStateByCase` | support/boot_model/boot_model.cpp:597-623 | what a request about a slot that runs in place or not is answered and what it marks |
| `BootProgress.NamedExactly` | support/boot_model/boot_model.cpp:144-171 | a request names the first slot that carries its hash; without one, a confirm names what runs and a test is refused |
| `BootProgress.ListingExactly` | support/boot_model/boot_model.cpp:388-438 | a listing has every slot with a valid image once, in order, with the flags its swap or its mark gives it |
| `BootProgress.ApplyEnds` | support/boot_model/boot_model.cpp:280-373 | after a reboot into a scheduled image of the device's own, the apply takes exactly as many reads as it says; then the image runs on trial with the old one kept, or, if it could not be applied, nothing has changed and nothing is scheduled |
| `BootProgress.CommitBegins` | support/boot_model/boot_model.cpp:323-380 | a commit begins with the first read that finds no trial of image 0, or with the confirm of image 0, for every applied image that is to be committed |
| `BootProgress.CommitEnds` | support/boot_model/boot_model.cpp:337-354 | a commit takes exactly as many reads as it says, and then the image is kept |
| `BootModel.FindsFirst` | support/boot_model/boot_model.cpp:131-142 | the search by hash finds the first slot that carries it, and nothing exactly if none does |
| `BootDeviceClass.BootDevice.constructor` | support/boot_model/boot_model.cpp:33-40 | a new device has erased slots, nothing scheduled, and one image if none are configured |
| `BootDeviceClass.BootDevice.FindByHash` | support/boot_model/boot_model.cpp:131-142 | the loop over the slots is the specified search |
| `BootDeviceClass.BootDevice.SetStateFor` | support/boot_model/boot_model.cpp:144-171 | set-state in place changes the device as specified and returns the specified error |
| `BootDeviceClass.BootDevice.SetNext` | support/boot_model/boot_model.cpp:178-248 | scheduling a slot in place changes the device as specified and returns the specified error |
| `BootDeviceClass.BootDevice.SetNextInPlace` | support/boot_model/boot_model.cpp:597-623 | direct-XIP's rules for marking a slot, in place, are the specified ones on every branch |
| `BootDeviceClass.BootDevice.RestartInPlace` | support/boot_model/boot_model.cpp:578-595 | direct-XIP's reboot in place has the specified effect |
| `BootDeviceClass.BootDevice.StartCommits` | support/boot_model/boot_model.cpp:323-335 | the loop over the images starts exactly the commits that are due |
| `BootDeviceClass.BootDevice.Restart` | support/boot_model/boot_model.cpp:250-311 | the reboot's two loops over the images have on all of them at once the effect that BootTheorems and BootInstalls are about |
| `BootDeviceClass.BootDevice.EndSwapsWithoutTrial` | support/boot_model/boot_model.cpp:258-277 | the first loop drops refused downgrades and carries out overwrites, pair by pair, as BootInstalls.DowngradeErased and OverwriteInstalls need it |
| `BootDeviceClass.BootDevice.ReadState` | support/boot_model/boot_model.cpp:382-386 | a read advances every apply and commit by one step and lists the slots as they are then |
| `BootDeviceClass.BootDevice.List` | support/boot_model/boot_model.cpp:388-438 | the listing holds every slot with a valid image, in order, with the flags its swap type implies |
| `SmpRuns.ExactlyOnePlace` | src/smp/client.cpp:60-222 | at every moment of every life of a client - requests, cancels, polls, bytes, disconnects, rebinds, destruction, and callbacks that do all of these but the last themselves - a request issued with a callback is in exactly one of pending, deferred and delivered |
| `SmpRuns.DestructionDelivers` | src/smp/client.cpp:211-222 | after destruction every request issued before it began to fail the table has been delivered exactly once |
| `SmpDestruction.LateRequestDelivered` | src/smp/client.cpp:211-222 | if the destructor's callbacks only issue requests and queue work, a request one of them issues once the table is being failed is delivered, once, exactly if it was refused a handle or got a place the sweep had yet to pass |
| `SmpDestruction.LostIsPending` | src/smp/client.cpp:386-397 | after destruction a request is undelivered exactly if it is still in the table |
| `SmpRuns.QuietDestructionDeliversAll` | src/smp/client.cpp:211-222 | if callbacks run by the destructor issue no further request, every request has been delivered exactly once |
| `SmpRuns.LateRequestIsLost` | src/smp/client.cpp:386-397 | the condition is needed: a life in which a request issued by a callback of the destructor's sweep is never delivered |
| `SmpRuns.AlwaysValid` | src/smp/client.cpp:367-493 | every step of every life, callbacks included, keeps the table, the ring, the flags and the next number valid |
| `SmpRuns.AlwaysRemembers` | src/smp/client.cpp:461-479 | in every life the ring holds exactly the last so many retired numbers, in order |
| `SmpRuns.LateResponseCompletesNothing` | src/smp/client.cpp:263-279 | in every life a message bearing one of the last retired numbers matches no request, whatever else it carries |
| `SmpDelivery.LateResponseIgnored` | src/smp/client.cpp:263-279 | so in every life such a message changes neither table, queue nor callbacks |
| `SmpDelivery.ResponseCompletes` | src/smp/client.cpp:263-292 | in every life a message with the number, group, command and operation of a pending request completes it: its place is freed, its number retired last, its callback called, and no other place touched |
| `SmpDelivery.UnmatchedIgnored` | src/smp/client.cpp:263-292 | a message no pending request answers to in full changes neither table, queue nor callbacks |
| `SmpDelivery.DeliveryEnds` | src/smp/client.cpp:226-240 | behind its last message a delivery is over; a broken stream fails everything pending |
| `SmpDelivery.ExpiredExactly` | src/smp/client.cpp:162-171 | the snapshot holds exactly the pending requests whose deadline has come, in the order of the table |
| `SmpDelivery.SnapshotTakes` | src/smp/client.cpp:162-171 | in every life a poll takes this snapshot once it has drained the queue, and touches nothing yet |
| `SmpDelivery.ExpiryCompletes` | src/smp/client.cpp:173-180 | the next request of the snapshot is completed exactly if its handle still stands for it |
| `SmpDelivery.PollExpires` | src/smp/client.cpp:156-183 | once a poll returns, every request that was pending and overdue when it was called is out of the table and the queue is empty, whatever the callbacks did |
| `SmpDelivery.PollDelivers` | src/smp/client.cpp:156-183 | every callback that was queued when a poll was called has been called when it returns |
| `SmpDelivery.PollSpares` | src/smp/client.cpp:173-180 | what a poll completes was pending and overdue at the snapshot |
| `SmpDelivery.FailureCompletes` | src/smp/client.cpp:386-397 | failing everything goes through the table place by place and completes what is pending there |
| `SmpDelivery.EverythingFailed` | src/smp/client.cpp:226-260 | once a disconnect or a broken stream has been dealt with, everything pending at that moment is out of the table, whatever the callbacks did |
| `SmpDelivery.RebindFailsAndConnects` | src/smp/client.cpp:199-209 | so it is with a rebind, behind which the client is connected |
| `SmpDelivery.DrainingCalls` | src/smp/client.cpp:411-422 | deferred work is called in the order it was queued, and what it queues comes in the next batch |
| `SmpDelivery.RequestOutcome` | src/smp/client.cpp:60-128 | in every life a request enters a free place under the first free number in turn, with its key, deadline and callback, exactly if there is a link, room, a place and a number and the transport takes it; any other is refused and its callback queued |
| `SmpDelivery.CancelOutcome` | src/smp/client.cpp:130-146 | a cancel takes the request out and queues its callback; a handle that stands for nothing does nothing |
| `SmpDelivery.DeferOutcome` | src/smp/client.cpp:148-154 | deferred work waits behind what is queued already |
| `SmpClient.RetireRemembers` | src/smp/client.cpp:461-479 | retiring keeps flags and ring in step; read from its head the ring is the last so many retired numbers, oldest first |
| `SmpClient.RequestValid` | src/smp/client.cpp:60-128 | a request, sent or not, keeps the client valid: pending numbers stay distinct and disjoint from the retired ones |
| `SmpClient.CancelValid` | src/smp/client.cpp:130-146 | a cancel, with a live or a stale handle, keeps the client valid |
| `SmpClient.AllocationSucceeds` | src/smp/client.cpp:482-493 | with a free place in the table and places plus ring within 256, some number is neither pending nor retired |
| `SmpClient.RequestGoesOut` | src/smp/client.cpp:60-128 | so a request on a live link whose payload fits and that finds a place is sent, under a handle that resolves |
| `SmpClient.LateMatchesNothing` | src/smp/client.cpp:263-292 | a remembered number matches no pending request |
| `SmpClientClass.Table.constructor` | src/smp/client.cpp:42-58 | a new client has an empty table, an empty ring and no deferred work |
| `SmpClientClass.Table.Retire` | src/smp/client.cpp:461-479 | the ring buffer and the flag array, updated in place, are the specified memory |
| `SmpClientClass.Table.AllocateSeq` | src/smp/client.cpp:482-493 | the probing loop finds the first usable number from the next one on, wrapping at 256, and moves on behind it |
| `SmpClientClass.Table.Detach` | src/smp/client.cpp:367-376 | an entry leaves the table, its number is retired and its callback handed back |
| `SmpClientClass.Table.Request` | src/smp/client.cpp:60-128 | a request in place is the specified one on every branch: refused, not allocated, not sent, sent |
| `SmpClientClass.Table.Cancel` | src/smp/client.cpp:130-146 | a cancel in place is the specified one; a stale handle changes nothing |
| `SerialLink.SerialRoundTrip` | transports/serial_port/serial_link.hpp:35-81 | any messages the link can carry, framed, with any marker-free or over-long lines between the frames, and read in any chunks, are delivered exactly and in order |
| `SerialLink.ReadsDoNotMatter` | transports/serial_port/serial_link.hpp:72-81 | however a stream is split into reads, the same packets come out |
| `SerialLink.FramesFit` | transports/serial/serial_framing.hpp:219-253 | no frame, newline included, is longer than 127 octets |
| `SerialFraming.PiecesMakeBody` | transports/serial/serial_framing.hpp:154-253 | the frames of a message together carry its length, its octets and its CRC once each and in order |
| `SerialFraming.PiecesAreBody` | transports/serial/serial_framing.hpp:219-311 | the frames of a message carry exactly its body: length, octets, CRC |
| `SerialFraming.ChangedBodyRejected` | transports/serial/serial_framing.hpp:513-539 | if the deframer accepts a body, it rejects every body that differs from it in two adjacent octets |
| `SerialFraming.CrcInLastPiece` | transports/serial/serial_framing.hpp:154-179 | both octets of the CRC travel in the last frame |
| `SerialFraming.PieceShape` | transports/serial/serial_framing.hpp:154-179 | a frame carries at most 93 octets, whole triplets unless it is the last, and only the last carries the CRC |
| `SerialFraming.FirstFrame` | transports/serial/serial_framing.hpp:477-540 | the first frame of a packet, whatever the deframer held, leaves it with the packet so far or delivers the packet |
| `SerialFraming.NextFrameFits` | transports/serial/serial_framing.hpp:477-540 | a continuation extends the packet so far to the next frame boundary or delivers the packet |
| `SerialFraming.NoiseIgnored` | transports/serial/serial_framing.hpp:477-495 | a line without a marker leaves a packet in the making alone |
| `SerialSound.PacketsAreWhole` | transports/serial/serial_framing.hpp:477-540 | whatever lines came before, a packet is handed out only if the frames since the last opening one carried exactly its length, its octets and its checksum, and it is no longer than allowed |
| `SerialSound.LineByCase` | transports/serial/serial_framing.hpp:477-540 | what every line leads to, by its marker, its text and the packet in the making: ignored, refused, more to come, or a packet |
| `SerialFraming.FramesAreFull` | transports/serial/serial_framing.hpp:154-179 | a frame carries the checksum exactly if all that is left and both its octets fit, and otherwise the most whole triplets that leave something for the next |
| `SerialFraming.FramesAreMarked` | transports/serial/serial_framing.hpp:219-253 | the first frame of every message opens a packet and the others continue one |
| `SerialLink.ReturnDropped` | transports/serial/serial_framing.hpp:352-391 | a carriage return before the newline changes nothing |
| `WireExamples.FrameByOctets` | transports/serial/serial_framing.hpp:219-311 | the one frame of a given request, octet by octet |
| `SerialClasses.SerialFramer.constructor` | transports/serial/serial_framing.hpp:201-204 | a message too long for the length field is refused |
| `SerialClasses.SerialFramer.NextFrame` | transports/serial/serial_framing.hpp:219-253 | the frame written into the caller's array is the specified one and nothing else in the array changes; nothing is written when done or when a longest frame would not fit |
| `SerialClasses.SerialFramer.Count` | transports/serial/serial_framing.hpp:257-275 | the count equals the number of frames produced |
| `SerialClasses.FrameMessage` | transports/serial_port/serial_link.hpp:35-48 | the octets written for a message are its frames one after another |
| `SerialClasses.LineSplitter.NextLine` | transports/serial/serial_framing.hpp:352-391 | the byte loop takes out the first complete line and hands back the rest of the chunk |
| `SerialClasses.SerialDeframer.FeedLine` | transports/serial/serial_framing.hpp:477-540 | a line fed in place has the specified outcome and leaves the specified state |
| `SerialClasses.SerialInbound.Feed` | transports/serial_port/serial_link.hpp:72-81 | splitter and deframer together deliver the packets of the stream, chunk by chunk |
| `Base64.DecodeEncode` | transports/serial/base64.hpp:72-147 | what was encoded is decoded |
| `Base64.EncodeDecode` | transports/serial/base64.hpp:104-147 | accepted text encodes back to itself exactly if its pad bits are zero |
| `Base64.PadBitsIgnored` | transports/serial/base64.hpp:119-139 | text an encoder would not write that is accepted nevertheless |
| `WireExamples.AlphabetInOrder` | transports/serial/base64.hpp:47-62 | the six-bit numbers from 0 to 63 in a row are encoded as the alphabet of RFC 4648 |
| `WireExamples.PaddedEnds` | transports/serial/base64.hpp:72-96 | one octet and two are padded as in RFC 4648 |
| `Base64.FindValue` | transports/serial/base64.hpp:53-62 | the scan of the alphabet finds the value of a symbol |
| `Base64.EncodeInto` | transports/serial/base64.hpp:72-96 | encoding into the caller's array writes the encoding and nothing else, or nothing if it does not fit |
| `Base64.DecodeInto` | transports/serial/base64.hpp:104-147 | decoding into the caller's array succeeds exactly on strict text that surely fits, and writes what it decodes to |
| `Crc16.Crc16Xmodem` | transports/serial/crc16.hpp:43-57 | the nested loop computes the CRC defined octet by octet |
| `Crc16.ResidueZero` | transports/serial/serial_framing.hpp:529-539 | a body has residue zero exactly if its last two octets are the big-endian CRC of the rest |
| `Crc16.AdjacentChangeDetected` | transports/serial/serial_framing.hpp:529-539 | any change confined to two adjacent octets changes the CRC |
| `Crc16.StepLinear` | transports/serial/crc16.hpp:43-57 | the eight-step update is linear over exclusive or |
| `Crc16.StepInjective` | transports/serial/crc16.hpp:43-57 | the eight-step update is injective |
| `Crc16.CheckValue` | transports/serial/crc16.hpp:43-57 | the check value of this CRC: 0x31C3 for the digits from 1 to 9 |
| `Assembler.FragmentationIndependent` | src/smp/assembler.cpp:52-142 | any chunking of a stream yields the messages and the ending, a framing error included, of the whole |
| `Assembler.ParseInParts` | src/smp/assembler.cpp:52-142 | a stream may be parsed in two parts, the second together with what the first left |
| `Assembler.ChunkedMessagesComeBack` | src/smp/codec.cpp:44-108 | encoded messages come back exactly in whatever chunks they arrive |
| `Assembler.HeaderRoundTrip` | src/smp/codec.cpp:44-108 | every header comes back exactly and nothing behind it matters |
| `Assembler.HeaderByOctets` | src/smp/codec.cpp:44-68 | the eight octets of every header, field by field |
| `Assembler.HeaderExactly` | src/smp/codec.cpp:70-108 | which octets are refused as a header and why, and any others are those of the header they decode to |
| `Assembler.StreamAccounted` | src/smp/assembler.cpp:52-142 | whatever the stream, the messages cut from it are its octets in order, and what is left is part of a message or refused for what it is: no header, or longer than will be held |
| `Assembler.IncompleteFits` | src/smp/assembler.cpp:30-50 | part of a message is never more than max(8, min(max_buffer, 8 + max_payload)) octets |
| `Assembler.MessageAssembler.Feed` | src/smp/assembler.cpp:52-142 | feeding in place yields the messages of what was held and the input, holds the rest within the bound, and refuses a sink that feeds again |
| `Sha256.HashPieces` | src/image/sha256.cpp:104-158 | for every message under 2^61 octets and every split into updates the digest is that of the one-shot definition, whose constants and known answers are proved |
| `Sha256.Hasher.Update` | src/image/sha256.cpp:104-129 | an update of any size extends the hashed message by its data |
| `Sha256.Hasher.Finish` | src/image/sha256.cpp:131-158 | padding in place, in one block or two, gives the digest of the padded message |
| `Sha256.Schedule` | src/image/sha256.cpp:52-65 | the in-place schedule is the recurrence |
| `Sha256.RunRounds` | src/image/sha256.cpp:67-92 | the loop over eight variables is the specified rounds |
| `Sha256.PaddingFits` | src/image/sha256.cpp:131-151 | the padded message is the whole blocks, then one block or two, depending on the room left for the length |
| `Sha256.BlocksInParts` | src/image/sha256.cpp:104-129 | compression over whole blocks may be split at any block boundary |
| `Sha256Examples.DigestOfAbc` | src/image/sha256.cpp:52-158 | the digest of "abc" |
| `Sha256Examples.DigestOfLong` | src/image/sha256.cpp:52-158 | the digest of the 56 octets that take two blocks |
| `Sha256Constants.RoundConstants` | src/image/sha256.cpp:15-25 | each round constant is the first 32 fractional bits of the cube root of its prime, as an inequality on cubes of integers, the primes ascending |
| `Sha256Constants.PrimesListed` | src/image/sha256.cpp:15-25 | the primes of which they are roots are the first 64, all of them and no others |
| `Sha256Constants.InitialValue` | src/image/sha256.hpp:53-54 | the initial value holds those bits of the square roots of the first eight primes |
| `Sha256Constants.ChoiceByBits` | src/image/sha256.cpp:77-78 | the choice takes one word where a third has ones and the other where it has zeros |
| `Sha256Constants.MajorityByBits` | src/image/sha256.cpp:80-82 | the majority is what two of three words have wherever they agree |
| `Cbor.CborRoundTrip` | support/minicbor/minicbor.cpp:59-227 | parsing an encoded tree returns it and consumes all input exactly if no node is deeper than 8; a deeper tree is refused |
| `Cbor.ItemRoundTrip` | support/minicbor/minicbor.cpp:117-215 | an encoded item comes back whatever follows it, and what follows is left |
| `Cbor.TooDeepRefused` | support/minicbor/minicbor.cpp:117-121 | an encoded tree with a node below the limit is refused whatever follows it |
| `CborGrammar.ParsesExactly` | support/minicbor/minicbor.cpp:59-227 | an input is accepted as a value exactly if it is an item of the grammar, in any of the argument widths, within the depth, that means it |
| `WireExamples.NumbersEncoded` | support/minicbor/minicbor.hpp:54-147 | numbers of each width as in appendix A of RFC 8949 |
| `WireExamples.StringsEncoded` | support/minicbor/minicbor.hpp:54-96 | strings and truth values as in appendix A of RFC 8949 |
| `WireExamples.ListEncoded` | support/minicbor/minicbor.hpp:54-96 | a list as in appendix A of RFC 8949 |
| `WireExamples.MapEncoded` | support/minicbor/minicbor.hpp:54-96 | a map with one entry, octet by octet |
| `Cbor.ParseBytes` | support/minicbor/minicbor.cpp:219-227 | the recursive descent over a moving cursor ends on every input, whatever counts it declares, and returns the specified result |
| `Cbor.Cursor.ReadArgument` | support/minicbor/minicbor.cpp:59-91 | the octet loop reads the argument and moves the cursor behind it |
| `Cbor.Cursor.ReadItem` | support/minicbor/minicbor.cpp:117-215 | one item is read as specified and takes at least one octet |
| `Cbor.Cursor.ReadItems` | support/minicbor/minicbor.cpp:104-114 | the loop reads as many items as declared, or fails where the specification does |
| `Cbor.Cursor.ReadPairs` | support/minicbor/minicbor.cpp:195-209 | the loop reads as many pairs as declared and refuses a key that is no text |
| `Cbor.Writer.Head` | support/minicbor/minicbor.hpp:126-147 | a head is written in as few octets as its argument needs |
| `Cbor.Writer.PushBe` | support/minicbor/minicbor.hpp:149-155 | the loop writes the lowest octets, the highest first |
| `Cbor.Writer.Write` | support/minicbor/minicbor.hpp:54-96 | writing a tree item by item appends its encoding |
| `Tlv.ReadersAgree` | src/image/tlv.cpp:85-219 | on every well-formed unencrypted image whose entries tile their areas within the scan's limit and hold one SHA-256, the client's reader and the oracle's find the same 32 octets, and the oracle the header's version |
| `Tlv.FindImageTlvHash` | src/image/tlv.cpp:139-219 | the scan reads only in bounds and its offset strictly grows, whatever the file says, and it is the specified scan |
| `Tlv.DescribeContent` | support/boot_model/image_reader.cpp:54-125 | the nested walk with wrapping 64-bit bounds tests reads only in bounds and is the specified walk |
| `Tlv.FitsExact` | support/boot_model/image_reader.cpp:36-42 | the bounds test written with wrapping 64-bit sums is the exact one |
| `Tlv.ParseHeader` | src/image/mcuboot_header.cpp:32-80 | an accepted header declares at least its own size and an image within the limit |
| `TlvExact.HeaderByOctets` | src/image/mcuboot_header.cpp:32-80 | which 32 octets are an image header, and every field of it by octet |
| `TlvExact.AreasByOctets` | src/image/tlv.cpp:85-137 | the areas are accepted exactly where and as they must stand, and the layout is theirs |
| `TlvExact.HashByCase` | src/image/tlv.cpp:139-219 | what the scan answers on every file: none for an encrypted one, refused if the areas do not stand, and otherwise by the hash entries of the areas, which must be tiled in at most 256 steps; entries that do not end with the protected area run on into the next |
| `TlvExact.LenientFindsLast` | support/boot_model/image_reader.cpp:54-125 | with the areas laid out, the oracle's walk finds the last SHA-256 of the unprotected one, whatever a protected one holds |
| `TlvExact.LenientWithoutArea` | support/boot_model/image_reader.cpp:54-125 | without an area behind the image it finds nothing |
| `Zip.ZipRoundTrip` | support/dfu_package/stored_zip.cpp:82-222 | reading back a written archive below 4 GiB gives every entry with its bytes and in order exactly if there are at most 32, no name is empty, over 255 octets or a directory's, and no two agree |
| `Zip.PackageRoundTrip` | examples/stub_device/demo_package.cpp:78-142 | a package comes back whole with its manifest last exactly if it has at most 31 files with distinct legal names other than manifest.json |
| `Zip.ReadsClaims` | support/dfu_package/stored_zip.cpp:118-222 | an archive of legal entries below 4 GiB is read whole if the checksum claimed for each is the true one, and refused as malformed if any is not |
| `ZipIntegrity.DamageRefused` | support/dfu_package/stored_zip.cpp:177-181 | replacing up to four adjacent octets of one entry's data in a written archive by any others makes reading fail as malformed |
| `ZipIntegrity.ReadIsVouched` | support/dfu_package/stored_zip.cpp:82-222 | whatever the archive, what is read stems from its last end record, and each entry from a directory header of its own, in order, that is plain and uncompressed and carries the name, the size and the checksum of the data found behind its local header |
| `Zip.ReadsOnlyLegal` | support/dfu_package/stored_zip.cpp:196-222 | whatever the archive, what is read is at most 32 entries with distinct legal names |
| `Zip.FindDirectory` | support/dfu_package/stored_zip.cpp:82-115 | the backward search finds the last end record whose comment reaches exactly to the end, or the specified error |
| `Zip.ReadStoredZip` | support/dfu_package/stored_zip.cpp:196-222 | the loop over the directory is, on every archive and errors included, the reading that ReadsClaims and ZipIntegrity are about |
| `Zip.BuildPackage` | examples/stub_device/demo_package.cpp:78-142 | the loops over the entries write local records, directory and end record, the directory with the offsets recorded on the way |
| `Crc32.TableCrc` | support/dfu_package/stored_zip.cpp:187-194 | the table-driven CRC-32 is the specified one on every input |
| `Crc32.BitwiseCrc` | examples/stub_device/demo_package.cpp:15-25 | the bitwise CRC-32 is the specified one on every input, so the two agree |
| `Crc32.MakeTable` | support/dfu_package/stored_zip.cpp:54-65 | the loops fill the table with the eight-step update of every octet |
| `Crc32.StepByTable` | support/dfu_package/stored_zip.cpp:187-194 | the eight-step update of a state is that of its low octet combined with the state moved down |
| `Crc32.BurstDetected` | support/dfu_package/stored_zip.cpp:187-194 | any change confined to four adjacent octets changes the checksum |
| `Crc32.CheckValue` | support/dfu_package/stored_zip.cpp:187-194 | the check value of this CRC: 0xCBF43926 for the digits from 1 to 9 |
| `Crc32.StepLinear` | support/dfu_package/stored_zip.cpp:54-65 | the eight-step update is linear over exclusive or |

## Left out

- ClosedLoop.NoHalfPackage: exactly two images, one the client commits and one the device commits, in either order, one file for each; a request is carried out at most once, the pieces of an upload only while it is outstanding, and the device reboots only from the update's reset, once.
- UpdateVerdicts.TableRules: of an upload it says what is marked next, not what follows in direct-XIP mode, where nothing is marked.
- UpdateAnswers.AnswerRules: the end of an upload in an upload-only update is not in it; UpdateRecord.ToldByEvents covers what that end reports.
- ClosedLoop.CompletedOnDevice: not stated for a run whose recorded mode is direct-XIP, in which nothing can be confirmed, nor for upload-only.
- UpdateTheorems.CompletedIsTrue: of a client image it says that some table of the run showed it kept, not the last one, because reads while waiting for the device's commit do not look at client images again; UpdateFinalTable.FinalTableExactly says when the last one does, for targets with one file each.
- UpdateTheorems.RecoveriesIncrease: bounds the recoveries only; UpdateRecovery.RetriedExactly says when there is one.
- SmpRuns.DestructionDelivers: about requests issued before the table is failed; SmpDestruction.LateRequestDelivered covers the later ones, for callbacks that meanwhile only issue requests and queue work.
- LoopCompletes.SomeTraceCompletes: the client image first, a plan that confirms without asking and a device whose apply and commit take one read each.
- Assembler.MessageAssembler.Feed: the sink is the returned list, so a sink that resets the assembler while it is being fed is not covered.
- Zip.BuildPackage: the manifest's text is a parameter.
- SmpClientClass.Table.Request: what the transport answers is a parameter, and the 64-bit generation counter does not wrap.
- Zip.PackageRoundTrip: the manifest's text is a parameter; building and reading its JSON is not modelled.
- Zip.ReadStoredZip: errors are the three codes; the message texts are not modelled.
- SmpRuns.ExactlyOnePlace: the loops of `poll`, `fail_all` and `deliver_deferred` are steps of a stack machine on values rather than loops of the class, because a callback may call back into the client between any two of their turns; iteration over the client's own fields in place is not captured for these three.
- SerialClasses.SerialDeframer.FeedLine: the counters and the peak of buffered octets are not modelled.
- Image versions are compared as numbers: parsing version text is left out, and a slot whose version does not parse is a value of the table.
- The upload session is left out: an upload finishes, is suspended or fails, and its chunks are not modelled.
- Loading, erasing and writing flash through the boot model's upload entry points; the closed loop writes a slot's content in one move.
- QCBOR-based reading and writing of management payloads, and the image and OS group clients on top of it.
- Transports, threads, scanning, reconnect policy and the coroutine interface.
- Manifest and board-name checks, dependency reading, version strings, console output and flags: mostly single-branch refusals that would add easy members only.
- Error texts, log tags and statistics.
