/**
  The vocabulary of a firmware update: what the device reports, what the application plans,
  what happens (events), what is to be done (effects) and what is reported.
 */
module UpdateTypes {
  import opened Common

  type Hash = seq<byte>

  datatype Version = Version(major: nat, minor: nat, revision: nat, build: nat)

  /**
    One row of the device's slot table. `version` is the reported text already parsed: `None` stands
    for a text that does not parse.
   */
  datatype ImageSlot = ImageSlot(
    image: nat, slot: nat, version: Option<Version>, hash: Option<Hash>,
    pending: bool, confirmed: bool, active: bool)

  type SlotTable = seq<ImageSlot>

  datatype CommitBy = Client | Device

  datatype Build = Build(hash: Hash, version: Version)

  /** What is to run where; `builds` is the pair for a device that runs in place, the even slot's build first. */
  datatype Target = Target(
    image: nat, commit: CommitBy, hash: Hash, version: Version, builds: Option<(Build, Build)>)

  datatype McubootMode =
    | Unknown | SingleSlot | SwapUsingScratch | UpgradeOnly | SwapUsingMove | DirectXip
    | DirectXipWithRevert | RamLoad | FirmwareLoader | SingleSlotRamLoad | SwapUsingOffset

  datatype ModeSource = Reported | Supplied | Assumed

  datatype Refusal = RevertUnavailable | Downgrade | UnsupportedMode | MultiImageUnsupported

  datatype UpdateMode = TestThenConfirm | ConfirmImmediately | UploadOnly

  datatype Plan = Plan(
    mode: UpdateMode, fallbackMode: Option<McubootMode>, allowNoRevert: bool, checkDowngrade: bool,
    skipIfPresent: bool, disconnectGrace: int, applyTimeout: int, applyPollInterval: int)

  datatype UpdateState =
    | Idle | QueryingParameters | QueryingBootloader | InspectingImages | Planning | Uploading
    | VerifyingUpload | MarkingForTest | Resetting | AwaitingDisconnect | AwaitingReconnect
    | VerifyingBooted | AwaitingDeviceApply | AwaitingConfirmation | Confirming
    | VerifyingConfirmed | AwaitingDeviceCommit | Completed | Failed | Cancelled

  predicate IsTerminal(state: UpdateState) {
    state.Completed? || state.Failed? || state.Cancelled?
  }

  datatype Effect =
    | Nothing | Continue | QueryParameters | QueryBootloader | ReadState | StartUpload
    | ResumeUpload | MarkForTest | Reset | ForceReset | AwaitDisconnect | RequestReconnect
    | AwaitApply | RequestConfirmation | Confirm | Finish

  datatype ErrorCode =
    | InvalidArgument | InvalidState | MalformedMessage | UnsupportedSmpVersion | MessageTooLarge
    | CborEncode | CborDecode | ProtocolError | UnexpectedResponse | Timeout | CancelledByCaller
    | TransportError | TransportBusy | Disconnection | ImageMismatch | UpdateFailed | UpdateRefused
    | Internal

  const GROUP_OS := 0
  const GROUP_IMAGE := 1
  const SMP_BAD_STATE := 6
  const SMP_BUSY := 10
  const IMAGE_ALREADY_PENDING := 28

  /** The device's own report inside an error: flat (`mcumgr_err_t`) or scoped to a group. */
  datatype MgmtError = MgmtError(group: nat, rc: nat, groupScoped: bool)

  datatype Error = Error(code: ErrorCode, mgmt: Option<MgmtError>)

  function SmpError(error: Error): Option<nat> {
    if error.mgmt.None? || error.mgmt.value.groupScoped then None else Some(error.mgmt.value.rc)
  }

  function ImageError(error: Error): Option<nat> {
    if error.mgmt.None? || !error.mgmt.value.groupScoped || error.mgmt.value.group != GROUP_IMAGE
    then None else Some(error.mgmt.value.rc)
  }

  /** Something that happened. A table that should be there and is not is `None`. */
  datatype Event =
    | Start
    | Proceed
    | ParametersRead(bufSize: nat)
    | ParametersUnavailable
    | BootloaderRead(mode: McubootMode, noDowngrade: bool)
    | StateRead(table: Option<SlotTable>)
    | UploadFinished(transferred: nat, alreadyPresent: bool)
    | UploadSuspended
    | MarkedForTest(table: Option<SlotTable>)
    | ResetAccepted
    | Disconnected
    | Reconnected
    | ReconnectFailed(error: Error)
    | Tick
    | ConfirmApproved
    | Confirmed(table: Option<SlotTable>)
    | Failure(error: Error)
    | Cancel

  predicate CarriesTable(event: Event) {
    event.StateRead? || event.MarkedForTest? || event.Confirmed?
  }

  datatype Step = Step(
    next: UpdateState, effect: Effect, target: nat, build: nat, image: nat, bufSize: nat, hash: Hash)

  datatype ImageReport = ImageReport(
    image: nat, commit: CommitBy, targetHash: Hash, bytesTransferred: nat, uploadSkipped: bool,
    uploadSlot: Option<nat>, rolledBack: bool, applied: bool, committed: bool)

  /** The bootloader's mode as far as known, and from whom. */
  datatype ModeRecord = ModeRecord(mode: McubootMode, source: ModeSource)

  /** Why the update ended, and whether the device will undo what was scheduled. */
  datatype Verdict = Verdict(cause: Option<Error>, revertPending: bool, refusal: Option<Refusal>)

  /** Totals over the images' reports. */
  datatype Summary = Summary(bytesTransferred: nat, uploadSkipped: bool, rolledBack: bool, uploadSlot: Option<nat>)

  /** Known only once the update has ended. */
  datatype Ending = Ending(finalState: UpdateState, targetHash: Option<Hash>, finalDeviceState: Option<SlotTable>)

  /** A target, the build settled on, the trial flag and the report entry. */
  datatype Image = Image(target: Target, chosen: nat, chosenKnown: bool, inTrial: bool, report: ImageReport)

  /** One-time allowances: recoveries spent, the approval given, the refusal checks passed. */
  datatype Allowances = Allowances(
    markRetried: bool, resetForced: bool, confirmReread: bool, confirmApproved: bool, preconditionsChecked: bool)

  /** `grace` ends the wait for the drop, `poll` is the next read, `deadline` ends the wait named by `phase`. */
  datatype Timers = Timers(
    grace: Option<int>, poll: Option<int>, deadline: Option<int>, phase: Option<UpdateState>)

  datatype Context = Context(
    targets: seq<Image>, current: nat, device: Option<SlotTable>, bufSize: nat, noDowngrade: bool,
    uploadInProgress: bool, swapScheduled: bool, spent: Allowances, mode: ModeRecord, verdict: Verdict)

  /**
    The machine between two events. The original keeps one context and one report; here the report is
    spread over what decides it: each image's entry, the mode and the verdict in the context, and the
    summary and the ending beside it.
   */
  datatype MachineState = MachineState(state: UpdateState, ctx: Context, timers: Timers, summary: Summary,
                                       ending: Ending)
}
