/**
  The update decisions as functions from a context and an event to a context and a step: the meaning
  of one `Machine::apply()`.

  A loop of the original is a recursive function here; the class in UpdateMachineClass.dfy runs the
  loops and is proved against these functions.
 */
module UpdateMachine {
  import opened Common
  import opened UpdateTypes

  datatype Outcome = Outcome(ctx: Context, next: UpdateState, effect: Effect)

  /** Replaces what is reported about one image. */
  function WithReport(c: Context, i: nat, report: ImageReport): Context
    requires i < |c.targets|
  {
    c.(targets := c.targets[i := c.targets[i].(report := report)])
  }

  function WithVerdict(c: Context, verdict: Verdict): Context {
    c.(verdict := verdict)
  }

  /** The failed update, with its cause, and with a revert announced if a swap was scheduled. */
  function Fail(c: Context, error: Error): Outcome {
    Outcome(WithVerdict(c, c.verdict.(cause := Some(error), revertPending := c.swapScheduled)), Failed, Finish)
  }

  function FailWith(c: Context, code: ErrorCode): Outcome {
    Fail(c, Error(code, None))
  }

  // --- Reading the slot table ------------------------------------------------------------------

  /** The last slot table, or an empty one before the first read. */
  function Table(c: Context): SlotTable {
    if c.device.Some? then c.device.value else []
  }

  /** The first row at or after `i` that runs `image`, or the table's length. */
  function ActiveFrom(t: SlotTable, image: nat, i: nat): (r: nat)
    requires i <= |t|
    ensures i <= r <= |t|
    ensures r < |t| ==> t[r].image == image && t[r].active
    ensures forall k :: i <= k < r ==> !(t[k].image == image && t[k].active)
    decreases |t| - i
  {
    if i == |t| || (t[i].image == image && t[i].active) then i else ActiveFrom(t, image, i + 1)
  }

  function Active(t: SlotTable, image: nat): nat {
    ActiveFrom(t, image, 0)
  }

  predicate Holds(slot: ImageSlot, target: Target) {
    target.hash != [] && slot.hash == Some(target.hash)
  }

  /** The lowest index from `i` on whose row has the target's image and hash, or the table's length. */
  function HolderFrom(t: SlotTable, target: Target, i: nat): (r: nat)
    requires i <= |t|
    ensures i <= r <= |t|
    ensures r < |t| ==> t[r].image == target.image && Holds(t[r], target)
    ensures forall k :: i <= k < r ==> !(t[k].image == target.image && Holds(t[k], target))
    decreases |t| - i
  {
    if i == |t| || (t[i].image == target.image && Holds(t[i], target)) then i else HolderFrom(t, target, i + 1)
  }

  function Holder(t: SlotTable, target: Target): nat {
    HolderFrom(t, target, 0)
  }

  predicate AnythingPending(t: SlotTable, image: nat) {
    exists k :: 0 <= k < |t| && t[k].image == image && t[k].pending
  }

  /** The device runs the target's file. */
  predicate Runs(t: SlotTable, target: Target) {
    Active(t, target.image) < |t| && Holds(t[Active(t, target.image)], target)
  }

  /** The device runs the target's file and keeps it. */
  predicate Keeps(t: SlotTable, target: Target) {
    Runs(t, target) && t[Active(t, target.image)].confirmed
  }

  predicate RunningOnTrial(t: SlotTable, target: Target) {
    target.commit.Client? && Runs(t, target) && !Keeps(t, target)
  }

  /** The four ways a table can show an image that the device commits. */
  datatype Apply = Applying | OnTrial | Committed | ApplyFailed

  function ApplyOf(t: SlotTable, target: Target): Apply {
    if Runs(t, target) then (if Keeps(t, target) then Committed else OnTrial)
    else if Holder(t, target) < |t| && t[Holder(t, target)].pending then Applying
    else ApplyFailed
  }

  // --- Refusals --------------------------------------------------------------------------------

  function RecordMode(reported: McubootMode, plan: Plan): ModeRecord {
    if !reported.Unknown? then ModeRecord(reported, Reported)
    else if plan.fallbackMode.Some? && !plan.fallbackMode.value.Unknown? then
        ModeRecord(plan.fallbackMode.value, Supplied)
    else ModeRecord(Unknown, Assumed)
  }

  function WithMode(c: Context, mode: ModeRecord): Context {
    c.(mode := mode)
  }

  function ModeRefusal(plan: Plan, mode: McubootMode, targets: nat): Option<Refusal> {
    var acceptsNoRevert := plan.mode.UploadOnly? || plan.allowNoRevert;
    if mode.SingleSlot? || mode.FirmwareLoader? || mode.RamLoad? || mode.SingleSlotRamLoad? then Some(UnsupportedMode)
    else if (mode.DirectXip? || mode.DirectXipWithRevert?) && targets > 1 then Some(MultiImageUnsupported)
    else if (mode.UpgradeOnly? || mode.DirectXip?) && !acceptsNoRevert then Some(RevertUnavailable)
    else None
  }

  /** The recorded mode is the one in which marks and confirms are never sent. */
  predicate WithoutSetState(c: Context) {
    c.mode.mode.DirectXip?
  }

  predicate Older(image: Version, running: Version) {
    if image.major != running.major then image.major < running.major
    else if image.minor != running.minor then image.minor < running.minor
    else image.revision < running.revision
  }

  predicate TargetIsDowngrade(t: SlotTable, target: Target) {
    var a := Active(t, target.image);
    a < |t| && !Holds(t[a], target) && t[a].version.Some? && Older(target.version, t[a].version.value)
  }

  predicate IsDowngrade(plan: Plan, c: Context) {
    plan.checkDowngrade && c.noDowngrade &&
    exists i :: 0 <= i < |c.targets| && TargetIsDowngrade(Table(c), c.targets[i].target)
  }

  /** Why the update must not touch the device, if it must not. */
  function RefusalFor(plan: Plan, c: Context): Option<Refusal> {
    var mode := ModeRefusal(plan, c.mode.mode, |c.targets|);
    if mode.Some? then mode else if IsDowngrade(plan, c) then Some(Downgrade) else None
  }

  /** The context with the checks on record, or the refused update; nothing changes if they are on record already. */
  function CheckPreconditions(plan: Plan, c: Context): Result<Context, Outcome> {
    if c.spent.preconditionsChecked then Ok(c) else
    var checked := c.(spent := c.spent.(preconditionsChecked := true));
    var refusal := RefusalFor(plan, c);
    if refusal.None? then Ok(checked)
    else Err(FailWith(WithVerdict(checked, checked.verdict.(refusal := refusal)), UpdateRefused))
  }

  // --- After the reset -------------------------------------------------------------------------

  /** The lowest index from `from` on whose trial flag is set, or the number of targets. */
  function NextInTrial(targets: seq<Image>, from: nat): (r: nat)
    requires from <= |targets|
    ensures from <= r <= |targets|
    ensures r < |targets| ==> targets[r].inTrial
    ensures forall k :: from <= k < r ==> !targets[k].inTrial
    decreases |targets| - from
  {
    if from == |targets| || targets[from].inTrial then from else NextInTrial(targets, from + 1)
  }

  /** A confirm if the plan or an earlier approval allows it, else the question; `current` is the first trial. */
  function ConfirmationFork(plan: Plan, c: Context): Outcome {
    var named := c.(current := NextInTrial(c.targets, 0));
    if plan.mode.ConfirmImmediately? || c.spent.confirmApproved then Outcome(named, Confirming, Confirm)
    else Outcome(named, AwaitingConfirmation, RequestConfirmation)
  }

  /** Whether `image` is a `Device` image reported as `apply`. */
  predicate Reports(t: SlotTable, image: Image, apply: Apply) {
    image.target.commit.Device? && ApplyOf(t, image.target) == apply
  }

  /** The table shows this device image as still applying or as failed. */
  predicate Lost(t: SlotTable, image: Image) {
    Reports(t, image, Applying) || Reports(t, image, ApplyFailed)
  }

  /** The first lost image at or after `i`, or the number of images. */
  function FirstLost(t: SlotTable, targets: seq<Image>, i: nat): (r: nat)
    requires i <= |targets|
    ensures i <= r <= |targets|
    ensures r < |targets| ==> Lost(t, targets[r])
    ensures forall k :: i <= k < r ==> !Lost(t, targets[k])
    decreases |targets| - i
  {
    if i == |targets| || Lost(t, targets[i]) then i else FirstLost(t, targets, i + 1)
  }

  /** The first image at or after `i` whose apply failed, or the number of images. */
  function FirstFailed(t: SlotTable, targets: seq<Image>, i: nat): (r: nat)
    requires i <= |targets|
    ensures i <= r <= |targets|
    ensures r < |targets| ==> Reports(t, targets[r], ApplyFailed)
    ensures forall k :: i <= k < r ==> !Reports(t, targets[k], ApplyFailed)
    decreases |targets| - i
  {
    if i == |targets| || Reports(t, targets[i], ApplyFailed) then i else FirstFailed(t, targets, i + 1)
  }

  /** What the table shows of one `Device` image is written to its report entry. */
  function Observed(t: SlotTable, image: Image): Image {
    if Reports(t, image, Committed) then image.(report := image.report.(applied := true, committed := true))
    else if Reports(t, image, OnTrial) then image.(report := image.report.(applied := true))
    else image
  }

  /** The images below `end` as observed, the rest as they were. */
  function ObservedBelow(t: SlotTable, targets: seq<Image>, end: nat): (r: seq<Image>)
    ensures |r| == |targets|
  {
    seq(|targets|, k requires 0 <= k < |targets| => if k < end then Observed(t, targets[k]) else targets[k])
  }

  /** Completed if every device image is committed, failed if one is lost, otherwise another wait for the commit. */
  function AwaitCommit(c: Context): Outcome {
    var t := Table(c);
    var lost := FirstLost(t, c.targets, 0);
    var d := c.(targets := ObservedBelow(t, c.targets, lost));
    if lost < |c.targets| then FailWith(WithReport(d, lost, d.targets[lost].report.(applied := false)), UpdateFailed)
    else if exists k :: 0 <= k < |c.targets| && Reports(t, c.targets[k], OnTrial) then
      Outcome(d, AwaitingDeviceCommit, AwaitApply)
    else Outcome(d, Completed, Finish)
  }

  /** Failed if an apply failed, a wait while one is going on, else the confirm or, with none owed, the commit. */
  function AwaitDevice(plan: Plan, c: Context): Outcome {
    var t := Table(c);
    var failed := FirstFailed(t, c.targets, 0);
    var d := c.(targets := ObservedBelow(t, c.targets, failed));
    if failed < |c.targets| then FailWith(d, UpdateFailed)
    else if exists k :: 0 <= k < |c.targets| && Reports(t, c.targets[k], Applying) then
      Outcome(d, AwaitingDeviceApply, AwaitApply)
    else if !c.swapScheduled then AwaitCommit(d)
    else ConfirmationFork(plan, d)
  }

  function WaitReadFailed(state: UpdateState, error: Error, c: Context): Outcome {
    if error.code.Disconnection? then Outcome(c, AwaitingReconnect, RequestReconnect)
    else if error.code.Timeout? then Outcome(c, state, AwaitApply)
    else Fail(c, error)
  }

  function ConfirmFailed(error: Error, c: Context): Outcome {
    var scheduled := c.(swapScheduled := true);
    if error.code.Disconnection? then Outcome(scheduled, AwaitingReconnect, RequestReconnect)
    else if error.code.Timeout? && !c.spent.confirmReread then
      Outcome(scheduled.(spent := c.spent.(confirmReread := true)), VerifyingBooted, ReadState)
    else Fail(scheduled, error)
  }

  /** The device runs something else for this `Client` image. */
  predicate NotRun(t: SlotTable, image: Image) {
    image.target.commit.Client? && !Runs(t, image.target)
  }

  /** ... and no slot of that image is pending. */
  predicate Reverted(t: SlotTable, image: Image) {
    NotRun(t, image) && !AnythingPending(t, image.target.image)
  }

  predicate NotBooted(t: SlotTable, image: Image) {
    NotRun(t, image) && AnythingPending(t, image.target.image)
  }

  /** This `Client` image runs unconfirmed, on a device that can confirm it. */
  predicate OwedConfirm(t: SlotTable, image: Image, withoutSetState: bool) {
    RunningOnTrial(t, image.target) && !withoutSetState
  }

  function JudgedImage(t: SlotTable, image: Image, withoutSetState: bool): Image {
    image.(inTrial := OwedConfirm(t, image, withoutSetState),
           report := if Reverted(t, image) then image.report.(rolledBack := true) else image.report)
  }

  predicate NoActiveSlot(t: SlotTable, image: Image) {
    image.target.commit.Client? && Active(t, image.target.image) == |t|
  }

  /** The context with each image's trial flag and rollback report set from the table. */
  function Judged(c: Context): Context {
    var t := Table(c);
    var d := c.(targets := seq(|c.targets|, k requires 0 <= k < |c.targets| => JudgedImage(t, c.targets[k],
        WithoutSetState(c))));
    d.(swapScheduled := (exists k :: 0 <= k < |c.targets| && NotBooted(t, c.targets[k]))
       || NextInTrial(d.targets, 0) < |d.targets|)
  }

  /** Failed unless the table has each client image running its target; then whatever `AwaitDevice` decides. */
  function InspectBoot(plan: Plan, c: Context): Outcome
  {
    var t := Table(c);
    if exists k :: 0 <= k < |c.targets| && NoActiveSlot(t, c.targets[k]) then FailWith(c, UpdateFailed)
    else if exists k :: 0 <= k < |c.targets| && NotRun(t, c.targets[k]) then FailWith(Judged(c), UpdateFailed)
    else AwaitDevice(plan, Judged(c))
  }

  // --- Planning --------------------------------------------------------------------------------

  /** The reset if a swap is scheduled, otherwise a judgement of the table held; an upload-only update completes. */
  function Staged(plan: Plan, c: Context): Outcome
  {
    if plan.mode.UploadOnly? then Outcome(c, Completed, Finish)
    else if c.swapScheduled then
      match CheckPreconditions(plan, c)
      case Err(refused) => refused
      case Ok(checked) => Outcome(checked, Resetting, Reset)
    else InspectBoot(plan, c)
  }

  function NextTarget(plan: Plan, c: Context): Outcome
  {
    var next := c.(current := c.current + 1, spent := c.spent.(markRetried := false));
    if next.current < |next.targets| then Outcome(next, Planning, Continue) else Staged(plan, next)
  }

  function MarkOrSkip(plan: Plan, c: Context): Outcome
  {
    if WithoutSetState(c) then NextTarget(plan, c.(swapScheduled := true))
    else Outcome(c, MarkingForTest, MarkForTest)
  }

  /** The first row at or after `i` that is slot `number` of `image`, or the table's length. */
  function ListedFrom(t: SlotTable, image: nat, number: nat, i: nat): (r: nat)
    requires i <= |t|
    ensures i <= r <= |t|
    ensures r < |t| ==> t[r].image == image && t[r].slot == number
    decreases |t| - i
  {
    if i == |t| || (t[i].image == image && t[i].slot == number) then i else ListedFrom(t, image, number, i + 1)
  }

  /** The slot that belongs to build `index` holds `hash`. */
  predicate BuildPresent(t: SlotTable, image: nat, index: nat, hash: Hash) {
    var at := ListedFrom(t, image, image * 2 + index, 0);
    at < |t| && t[at].hash == Some(hash)
  }

  /** The build a two-build target is about: one already in place, the running one first, else the free slot's. */
  function ChosenBuild(t: SlotTable, image: nat, builds: (Build, Build)): (r: nat)
    ensures r <= 1
  {
    var running := Active(t, image);
    var free: nat := if running < |t| && t[running].slot == image * 2 + 1 then 0 else 1;
    var first := BuildPresent(t, image, 0, builds.0.hash);
    var second := BuildPresent(t, image, 1, builds.1.hash);
    if second && (!first || ListedFrom(t, image, image * 2 + 1, 0) == running) then 1
    else if first then 0
    else free
  }

  /** The context with the current target's build settled, or the failure if the mode takes no pairs. */
  function ChooseBuild(c: Context): Result<Context, Outcome>
    requires c.current < |c.targets|
  {
    var image := c.targets[c.current];
    if image.target.builds.None? || image.chosenKnown then Ok(c)
    else if !c.mode.mode.DirectXip? && !c.mode.mode.DirectXipWithRevert? then Err(FailWith(c, InvalidArgument))
    else
      var builds := image.target.builds.value;
      var chosen := ChosenBuild(Table(c), image.target.image, builds);
      var build := if chosen == 0 then builds.0 else builds.1;
      var decided := image.(chosen := chosen, chosenKnown := true,
                            target := image.target.(hash := build.hash, version := build.version),
                            report := image.report.(targetHash := build.hash));
      Ok(c.(targets := c.targets[c.current := decided]))
  }

  /** Nothing, a mark, or an upload. */
  datatype Need = Skip(entry: ImageReport, scheduled: bool) | Mark(slot: nat) | Upload

  function NeedOf(plan: Plan, t: SlotTable, target: Target, entry: ImageReport): Need {
    var holder := Holder(t, target);
    if holder < |t| && holder == Active(t, target.image) then Skip(entry.(uploadSkipped := true), false)
    else if holder < |t| && t[holder].pending then
      Skip(entry.(uploadSkipped := true, uploadSlot := Some(t[holder].slot)), !plan.mode.UploadOnly?)
    else if holder < |t| && plan.skipIfPresent then
      if plan.mode.UploadOnly? then Skip(entry.(uploadSkipped := true), false) else Mark(t[holder].slot)
    else Upload
  }

  /** The current image's file is in a slot, unmarked: mark it. */
  function PlanMark(plan: Plan, c: Context, slot: nat): Outcome
    requires c.current < |c.targets|
  {
    var entry := c.targets[c.current].report.(uploadSkipped := true);
    match CheckPreconditions(plan, WithReport(c, c.current, entry))
    case Err(refused) => refused
    case Ok(checked) => MarkOrSkip(plan, checked.(targets := WithReport(c, c.current,
        entry.(uploadSlot := Some(slot))).targets))
  }

  function PlanUpload(plan: Plan, c: Context): Outcome {
    match CheckPreconditions(plan, c)
    case Err(refused) => refused
    case Ok(checked) => Outcome(checked.(uploadInProgress := true), Uploading, StartUpload)
  }

  function SkipCurrent(c: Context, need: Need): Context
    requires need.Skip? && c.current < |c.targets|
  {
    WithReport(c, c.current, need.entry).(swapScheduled := c.swapScheduled || need.scheduled, current := c.current + 1)
  }

  function PlanFrom(plan: Plan, c: Context): (o: Outcome)
    decreases |c.targets| - c.current
  {
    if c.current >= |c.targets| then Staged(plan, c) else
    match ChooseBuild(c)
    case Err(failed) => failed
    case Ok(d) =>
      match NeedOf(plan, Table(d), d.targets[d.current].target, d.targets[d.current].report)
      case Skip(entry, scheduled) => PlanFrom(plan, SkipCurrent(d, Skip(entry, scheduled)))
      case Mark(slot) => PlanMark(plan, d, slot)
      case Upload => PlanUpload(plan, d)
  }

  function SkipAll(targets: seq<Image>): (r: seq<Image>)
    ensures |r| == |targets|
  {
    seq(|targets|, i requires 0 <= i < |targets| => targets[i].(report := targets[i].report.(uploadSkipped := true)))
  }

  /** A `Client` image already runs its file on trial: the reset has happened, whoever asked for it. */
  predicate AfterReset(c: Context) {
    c.current == 0 && exists i :: 0 <= i < |c.targets| && RunningOnTrial(Table(c), c.targets[i].target)
  }

  function PlanFromState(plan: Plan, c: Context): Outcome
  {
    if AfterReset(c) && !plan.mode.UploadOnly? then InspectBoot(plan, c.(targets := SkipAll(c.targets)))
    else PlanFrom(plan, c)
  }

  // --- Single decisions ------------------------------------------------------------------------

  function AfterUpload(plan: Plan, c: Context, transferred: nat, alreadyPresent: bool): Outcome
    requires c.current < |c.targets|
  {
    var entry := c.targets[c.current].report;
    var done := WithReport(c.(uploadInProgress := false), c.current,
                          entry.(bytesTransferred := transferred, uploadSkipped := entry.uploadSkipped
                                 || alreadyPresent));
    if plan.mode.UploadOnly? then NextTarget(plan, done) else Outcome(done, VerifyingUpload, ReadState)
  }

  /** A refusal of the mark that a lost answer to an earlier one would explain. */
  predicate Recoverable(error: Error) {
    ImageError(error) == Some(IMAGE_ALREADY_PENDING) || SmpError(error) == Some(SMP_BAD_STATE)
  }

  function MarkRefused(error: Error, c: Context): Outcome {
    if Recoverable(error) && !c.spent.markRetried then
      Outcome(c.(spent := c.spent.(markRetried := true)), InspectingImages, ReadState)
    else Fail(c, error)
  }

  function ResetRefused(error: Error, c: Context): Outcome {
    if SmpError(error) == Some(SMP_BUSY) && !c.spent.resetForced then
      Outcome(c.(spent := c.spent.(resetForced := true)), Resetting, ForceReset)
    else if error.code.Disconnection? || error.code.Timeout? then Outcome(c, AwaitingDisconnect, AwaitDisconnect)
    else Fail(c, error)
  }

  function BootloaderFailed(error: Error, plan: Plan, c: Context): Outcome {
    if error.code.ProtocolError? || error.code.CborDecode? then
      Outcome(WithMode(c, RecordMode(Unknown, plan)), InspectingImages, ReadState)
    else Fail(c, error)
  }

  predicate Waiting(state: UpdateState) {
    state.AwaitingDeviceApply? || state.AwaitingDeviceCommit?
  }

  /** The poll has fallen due. */
  predicate PollDue(state: UpdateState, now: int, timers: Timers) {
    Waiting(state) && timers.poll.Some? && now >= timers.poll.value
  }

  /** The outcome of time `now`: a reconnect, a timeout, a read that is due, or nothing. */
  function OnTick(state: UpdateState, now: int, timers: Timers, c: Context): Outcome {
    if state.AwaitingDisconnect? && timers.grace.Some? && now >= timers.grace.value then
      Outcome(c, AwaitingReconnect, RequestReconnect)
    else if !PollDue(state, now, timers) then Outcome(c, state, Nothing)
    else if timers.deadline.Some? && now >= timers.deadline.value then FailWith(c, Timeout)
    else Outcome(c, state, ReadState)
  }

  predicate AllClientsKept(t: SlotTable, targets: seq<Image>) {
    forall i :: 0 <= i < |targets| && targets[i].target.commit.Client? ==> Keeps(t, targets[i].target)
  }

  predicate AllDevicesKept(t: SlotTable, targets: seq<Image>) {
    forall i :: 0 <= i < |targets| && targets[i].target.commit.Device? ==> Keeps(t, targets[i].target)
  }

  predicate AllDevicesRun(t: SlotTable, targets: seq<Image>) {
    forall i :: 0 <= i < |targets| && targets[i].target.commit.Device? ==> Runs(t, targets[i].target)
  }

  function AfterConfirm(c: Context): Outcome
    requires c.current < |c.targets|
  {
    var done := c.(targets := c.targets[c.current := c.targets[c.current].(inTrial := false)]);
    var next := done.(current := NextInTrial(done.targets, done.current));
    if next.current < |next.targets| then Outcome(next, Confirming, Confirm)
    else Outcome(next.(swapScheduled := false), VerifyingConfirmed, ReadState)
  }

  function NeedsCurrent(state: UpdateState): bool {
    state.Uploading? || state.VerifyingUpload? || state.MarkingForTest? || state.Confirming?
  }

  function NamesCurrent(effect: Effect): bool {
    effect.StartUpload? || effect.MarkForTest? || effect.Confirm?
  }

  /**
    The machine can decide on `event` at all: it has a target where it needs one, and the table the event
    should carry.
   */
  predicate Decidable(state: UpdateState, event: Event, c: Context) {
    |c.targets| > 0 && (NeedsCurrent(state) ==> c.current < |c.targets|) && (CarriesTable(event) ==> event.table.Some?)
  }

  function IllegalEvent(c: Context): Outcome {
    FailWith(c, Internal)
  }

  /** The states before anything has been sent that changes the device. */
  function DecideQuery(plan: Plan, state: UpdateState, event: Event, c: Context): Outcome
    requires Decidable(state, event, c)
  {
    if state.Idle? then
      (if event.Start? then Outcome(c, QueryingParameters, QueryParameters) else IllegalEvent(c))
    else if state.QueryingParameters? then
      (if event.ParametersRead? then Outcome(c.(bufSize := event.bufSize), QueryingBootloader, QueryBootloader)
      else if event.ParametersUnavailable? then Outcome(c, QueryingBootloader, QueryBootloader)
      else IllegalEvent(c))
    else if state.QueryingBootloader? then
      (if event.BootloaderRead? then
        Outcome(WithMode(c, RecordMode(event.mode, plan)).(noDowngrade := event.noDowngrade), InspectingImages,
                ReadState)
      else if event.Failure? then BootloaderFailed(event.error, plan, c)
      else IllegalEvent(c))
    else if state.InspectingImages? then
      (if event.StateRead? then Outcome(c.(device := event.table), Planning, Continue)
      else if event.Failure? then Fail(c, event.error)
      else IllegalEvent(c))
    else IllegalEvent(c)
  }

  function UploadVerified(plan: Plan, c: Context): Outcome
    requires c.current < |c.targets|
  {
    var t := Table(c);
    var holder := Holder(t, c.targets[c.current].target);
    if holder == |t| then FailWith(c, ImageMismatch)
    else MarkOrSkip(plan, WithReport(c, c.current, c.targets[c.current].report.(uploadSlot := Some(t[holder].slot))))
  }

  /** The states that stage the images, up to the reset. */
  function DecideStaging(plan: Plan, state: UpdateState, event: Event, c: Context): Outcome
    requires Decidable(state, event, c)
  {
    if state.Planning? then
      (if event.Proceed? then PlanFromState(plan, c) else IllegalEvent(c))
    else if state.Uploading? then
      (if event.UploadFinished? then AfterUpload(plan, c, event.transferred, event.alreadyPresent)
      else if event.UploadSuspended? then Outcome(c, AwaitingReconnect, RequestReconnect)
      else if event.Failure? then Fail(c, event.error)
      else IllegalEvent(c))
    else if state.VerifyingUpload? then
      (if event.StateRead? then UploadVerified(plan, c.(device := event.table))
      else if event.Failure? then Fail(c, event.error)
      else IllegalEvent(c))
    else if state.MarkingForTest? then
      (if event.MarkedForTest? then NextTarget(plan, c.(device := event.table, swapScheduled := true))
      else if event.Failure? then MarkRefused(event.error, c)
      else IllegalEvent(c))
    else if state.Resetting? then
      (if event.ResetAccepted? then Outcome(c, AwaitingDisconnect, AwaitDisconnect)
      else if event.Failure? then ResetRefused(event.error, c)
      else IllegalEvent(c))
    else if state.AwaitingDisconnect? then
      (if event.Disconnected? then Outcome(c, AwaitingReconnect, RequestReconnect) else IllegalEvent(c))
    else if state.AwaitingReconnect? then
      (if event.Reconnected? then
        if c.uploadInProgress then Outcome(c, Uploading, ResumeUpload) else Outcome(c, VerifyingBooted, ReadState)
      else if event.ReconnectFailed? then Fail(c, event.error)
      else IllegalEvent(c))
    else IllegalEvent(c)
  }

  function ConfirmVerified(c: Context): Outcome
  {
    if AllClientsKept(Table(c), c.targets) then AwaitCommit(c)
    else FailWith(c.(swapScheduled := true), UpdateFailed)
  }

  /** The states after the reset. */
  function DecideBooted(plan: Plan, state: UpdateState, event: Event, c: Context): Outcome
    requires Decidable(state, event, c)
  {
    if state.VerifyingBooted? then
      (if event.StateRead? then InspectBoot(plan, c.(device := event.table))
      else if event.Failure? then Fail(c, event.error)
      else IllegalEvent(c))
    else if state.AwaitingDeviceApply? then
      (if event.StateRead? then AwaitDevice(plan, c.(device := event.table))
      else if event.Failure? then WaitReadFailed(state, event.error, c)
      else IllegalEvent(c))
    else if state.AwaitingDeviceCommit? then
      (if event.StateRead? then AwaitCommit(c.(device := event.table))
      else if event.Failure? then WaitReadFailed(state, event.error, c)
      else IllegalEvent(c))
    else if state.AwaitingConfirmation? then
      (if event.ConfirmApproved? then Outcome(c.(spent := c.spent.(confirmApproved := true)), Confirming, Confirm)
      else IllegalEvent(c))
    else if state.Confirming? then
      (if event.Confirmed? then AfterConfirm(c.(device := event.table))
      else if event.Failure? then ConfirmFailed(event.error, c)
      else IllegalEvent(c))
    else if state.VerifyingConfirmed? then
      (if event.StateRead? then ConfirmVerified(c.(device := event.table))
      else if event.Failure? then ConfirmFailed(event.error, c)
      else IllegalEvent(c))
    else IllegalEvent(c)
  }

  function Decide(plan: Plan, state: UpdateState, event: Event, now: int, timers: Timers, c: Context): Outcome
    requires IsTerminal(state) || Decidable(state, event, c)
  {
    if event.Cancel? then
      if IsTerminal(state) then Outcome(c, state, Nothing)
      else Outcome(WithVerdict(c, c.verdict.(revertPending := c.swapScheduled)), Cancelled, Finish)
    else if event.Tick? then OnTick(state, now, timers, c)
    else if IsTerminal(state) then Outcome(c, state, Nothing)
    else if state.Idle? || state.QueryingParameters? || state.QueryingBootloader? || state.InspectingImages? then
      DecideQuery(plan, state, event, c)
    else if state.Planning? || state.Uploading? || state.VerifyingUpload? || state.MarkingForTest?
         || state.Resetting? || state.AwaitingDisconnect? || state.AwaitingReconnect? then
      DecideStaging(plan, state, event, c)
    else DecideBooted(plan, state, event, c)
  }

  // --- One event -------------------------------------------------------------------------------

  function TotalTransferred(targets: seq<Image>): nat {
    if targets == [] then 0
    else TotalTransferred(targets[..|targets| - 1]) + targets[|targets| - 1].report.bytesTransferred
  }

  function Summarised(targets: seq<Image>): Summary
    requires targets != []
  {
    Summary(TotalTransferred(targets),
            forall i :: 0 <= i < |targets| ==> targets[i].report.uploadSkipped,
            exists i :: 0 <= i < |targets| && targets[i].report.rolledBack,
            targets[0].report.uploadSlot)
  }

  /** The step handed to the driver; upload, mark and confirm carry the current target's data. */
  function StepOf(o: Outcome): Step
    requires NamesCurrent(o.effect) ==> o.ctx.current < |o.ctx.targets|
  {
    var bare := Step(o.next, o.effect, 0, 0, 0, 0, []);
    if o.effect.StartUpload? then
      var image := o.ctx.targets[o.ctx.current];
      bare.(target := o.ctx.current, build := image.chosen, image := image.target.image, bufSize := o.ctx.bufSize)
    else if o.effect.MarkForTest? || o.effect.Confirm? then
      var target := o.ctx.targets[o.ctx.current].target;
      bare.(image := target.image, hash := target.hash)
    else bare
  }

  function KeepTime(next: UpdateState, effect: Effect, now: int, plan: Plan, timers: Timers): Timers {
    var d := if !next.AwaitingDisconnect? then timers.(grace := None) else timers;
    if effect.AwaitDisconnect? then d.(grace := Some(now + plan.disconnectGrace))
    else if effect.AwaitApply? then
      if d.phase == Some(next) then d.(poll := Some(now + plan.applyPollInterval))
      else Timers(d.grace, Some(now + plan.applyPollInterval), Some(now + plan.applyTimeout), Some(next))
    else if effect.Finish? then Timers(d.grace, None, None, None)
    else d
  }

  /** `decide()`, with the machine's own guards around it. */
  function Guarded(plan: Plan, m: MachineState, event: Event, now: int): (o: Outcome)
    ensures NamesCurrent(o.effect) ==> o.ctx.current < |o.ctx.targets|
  {
    var decided := if IsTerminal(m.state) || Decidable(m.state, event, m.ctx) then
        Decide(plan, m.state, event, now, m.timers, m.ctx)
                   else FailWith(m.ctx, Internal);
    if NamesCurrent(decided.effect) && decided.ctx.current >= |decided.ctx.targets| then FailWith(decided.ctx, Internal)
    else decided
  }

  /**
    The machine after `event` was decided as `o`: the images summed up, the report completed if it ends, the
    deadlines armed.
   */
  function Advance(plan: Plan, m: MachineState, event: Event, now: int, o: Outcome): MachineState {
    var due := if event.Tick? && PollDue(m.state, now, m.timers) then m.timers.(poll := None) else m.timers;
    MachineState(o.next, o.ctx,
                 KeepTime(o.next, o.effect, now, plan, due),
                 if o.ctx.targets == [] then m.summary else Summarised(o.ctx.targets),
                 if !o.effect.Finish? then m.ending
                 else Ending(o.next, Some(if o.ctx.targets == [] then [] else o.ctx.targets[0].target.hash),
                             o.ctx.device))
  }

  /** One event. */
  function ApplyEvent(plan: Plan, m: MachineState, event: Event, now: int): (MachineState, Step) {
    var o := Guarded(plan, m, event, now);
    (Advance(plan, m, event, now, o), StepOf(o))
  }

  function InitialImage(target: Target): Image {
    Image(target, 0, false, false, ImageReport(target.image, target.commit, target.hash, 0, false, None, false,
                                               false, false))
  }

  function Initial(targets: seq<Target>): MachineState {
    MachineState(Idle,
                 Context(seq(|targets|, i requires 0 <= i < |targets| => InitialImage(targets[i])), 0, None, 0,
                         false, false, false,
                         Allowances(false, false, false, false, false), ModeRecord(Unknown, Assumed),
                             Verdict(None, false, None)),
                 Timers(None, None, None, None), Summary(0, false, false, None), Ending(Idle, None, None))
  }
}
