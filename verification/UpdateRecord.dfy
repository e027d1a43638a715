/**
  What an update keeps of its run and reports of it: the approval, the buffer size, the mode, the octets
  transferred, the totals and the ending, each told from the events of the run alone.
 */
module UpdateRecord {
  import opened Common
  import opened UpdateTypes
  import opened UpdateMachine
  import opened UpdateInvariant
  import opened UpdateSteps
  import opened UpdateRuns
  import opened UpdateTheorems
  import opened UpdateVerdicts

  // --- What decisions leave alone ------------------------------------------------------------------

  /** The report is about the target: its image, who commits it, and the file, which is the build settled on if any. */
  predicate AboutTarget(image: Image) {
    && image.report.image == image.target.image && image.report.commit == image.target.commit
    && image.report.targetHash == image.target.hash
    && (image.chosenKnown ==>
          && image.target.builds.Some? && image.chosen <= 1
          && var (first, second) := image.target.builds.value;
             Build(image.target.hash, image.target.version) == if image.chosen == 0 then first else second)
  }

  predicate Kept(before: seq<Image>, after: seq<Image>) {
    && |after| == |before|
    && (forall k :: 0 <= k < |before| ==> after[k].report.bytesTransferred == before[k].report.bytesTransferred)
    && (forall k :: 0 <= k < |before| && AboutTarget(before[k]) ==> AboutTarget(after[k]))
  }

  /** Approval, buffer size, mode and what is known of the images stay. */
  predicate Retained(c: Context, d: Context) {
    && d.spent.confirmApproved == c.spent.confirmApproved && d.bufSize == c.bufSize
    && d.mode == c.mode && d.noDowngrade == c.noDowngrade && Kept(c.targets, d.targets)
  }

  /** A report entry that says nothing new about the target or the transfer. */
  lemma EntryRetains(c: Context, i: nat, entry: ImageReport)
    requires i < |c.targets| && entry.bytesTransferred == c.targets[i].report.bytesTransferred
    requires entry.image == c.targets[i].report.image && entry.commit == c.targets[i].report.commit
             && entry.targetHash == c.targets[i].report.targetHash
    ensures Kept(c.targets, WithReport(c, i, entry).targets)
  {
  }

  lemma ObservedRetains(t: SlotTable, targets: seq<Image>, end: nat)
    ensures Kept(targets, ObservedBelow(t, targets, end))
  {
    hide Reports;
  }

  lemma AwaitCommitRetains(c: Context)
    ensures Retained(c, AwaitCommit(c).ctx)
  {
    hide Reports, Lost, Table, ObservedBelow, AboutTarget;
    var t := Table(c);
    var lost := FirstLost(t, c.targets, 0);
    var d := c.(targets := ObservedBelow(t, c.targets, lost));
    ObservedRetains(t, c.targets, lost);
    if lost < |c.targets| {
      EntryRetains(d, lost, d.targets[lost].report.(applied := false));
    }
  }

  lemma AwaitDeviceRetains(plan: Plan, c: Context)
    ensures Retained(c, AwaitDevice(plan, c).ctx)
  {
    hide Reports, Table, AwaitCommit, NextInTrial, ObservedBelow, AboutTarget;
    var t := Table(c);
    var failed := FirstFailed(t, c.targets, 0);
    ObservedRetains(t, c.targets, failed);
    AwaitCommitRetains(c.(targets := ObservedBelow(t, c.targets, failed)));
  }

  lemma JudgedRetains(c: Context)
    ensures Retained(c, Judged(c))
  {
    hide NotBooted, Reverted, OwedConfirm, Table, NextInTrial;
  }

  lemma InspectBootRetains(plan: Plan, c: Context)
    ensures Retained(c, InspectBoot(plan, c).ctx)
  {
    hide AwaitDevice, NotRun, NoActiveSlot, Judged, Table, AboutTarget;
    JudgedRetains(c);
    AwaitDeviceRetains(plan, Judged(c));
  }

  lemma StagedRetains(plan: Plan, c: Context)
    ensures Retained(c, Staged(plan, c).ctx)
  {
    hide InspectBoot, RefusalFor, AboutTarget;
    InspectBootRetains(plan, c);
  }

  lemma NextTargetRetains(plan: Plan, c: Context)
    ensures Retained(c, NextTarget(plan, c).ctx)
  {
    hide Staged, AboutTarget;
    StagedRetains(plan, c.(current := c.current + 1, spent := c.spent.(markRetried := false)));
  }

  lemma MarkOrSkipRetains(plan: Plan, c: Context)
    ensures Retained(c, MarkOrSkip(plan, c).ctx)
  {
    hide NextTarget, AboutTarget;
    NextTargetRetains(plan, c.(swapScheduled := true));
  }

  lemma PlanMarkRetains(plan: Plan, c: Context, slot: nat)
    requires c.current < |c.targets|
    ensures Retained(c, PlanMark(plan, c, slot).ctx)
  {
    hide RefusalFor, MarkOrSkip, AboutTarget;
    var entry := c.targets[c.current].report.(uploadSkipped := true);
    EntryRetains(c, c.current, entry);
    EntryRetains(c, c.current, entry.(uploadSlot := Some(slot)));
    var checked := CheckPreconditions(plan, WithReport(c, c.current, entry));
    if checked.Ok? {
      MarkOrSkipRetains(plan, checked.value.(targets := WithReport(c, c.current,
                                                                   entry.(uploadSlot := Some(slot))).targets));
    }
  }

  lemma PlanUploadRetains(plan: Plan, c: Context)
    ensures Retained(c, PlanUpload(plan, c).ctx)
  {
    hide RefusalFor, AboutTarget;
  }

  lemma ChooseBuildRetains(c: Context)
    requires c.current < |c.targets|
    ensures match ChooseBuild(c)
            case Ok(d) => Retained(c, d) && d.current == c.current
            case Err(o) => Retained(c, o.ctx)
  {
    hide ChosenBuild;
  }

  lemma SkipRetains(plan: Plan, c: Context)
    requires c.current < |c.targets|
    ensures var need := NeedOf(plan, Table(c), c.targets[c.current].target, c.targets[c.current].report);
            need.Skip? ==> Retained(c, SkipCurrent(c, need))
  {
    hide Holder, Active, AboutTarget;
    var need := NeedOf(plan, Table(c), c.targets[c.current].target, c.targets[c.current].report);
    if need.Skip? {
      EntryRetains(c, c.current, need.entry);
    }
  }

  lemma {:induction false} PlanFromRetains(plan: Plan, c: Context)
    ensures Retained(c, PlanFrom(plan, c).ctx)
    decreases |c.targets| - c.current
  {
    hide Staged, ChooseBuild, PlanMark, PlanUpload, NeedOf, AboutTarget;
    if c.current >= |c.targets| {
      StagedRetains(plan, c);
    } else {
      ChooseBuildRetains(c);
      if ChooseBuild(c).Ok? {
        var d := ChooseBuild(c).value;
        var need := NeedOf(plan, Table(d), d.targets[d.current].target, d.targets[d.current].report);
        SkipRetains(plan, d);
        match need
        case Skip(_, _) => PlanFromRetains(plan, SkipCurrent(d, need));
        case Mark(slot) => PlanMarkRetains(plan, d, slot);
        case Upload => PlanUploadRetains(plan, d);
      }
    }
  }

  lemma PlanFromStateRetains(plan: Plan, c: Context)
    ensures Retained(c, PlanFromState(plan, c).ctx)
  {
    hide PlanFrom, InspectBoot, AfterReset;
    PlanFromRetains(plan, c);
    InspectBootRetains(plan, c.(targets := SkipAll(c.targets)));
  }

  // --- One decision --------------------------------------------------------------------------------

  /** The mode on record: the device's own answer, else the plan's, else none, and from whom it is. */
  predicate ModeRuling(plan: Plan, told: McubootMode, mode: ModeRecord) {
    if told != Unknown then mode == ModeRecord(told, Reported)
    else if plan.fallbackMode.Some? && plan.fallbackMode.value != Unknown then
      mode == ModeRecord(plan.fallbackMode.value, Supplied)
    else mode == ModeRecord(Unknown, Assumed)
  }

  /** The bootloader's answer, if this event is one: its mode and whether it refuses downgrades. */
  function BootloaderAnswer(state: UpdateState, event: Event): Option<(McubootMode, bool)> {
    if !state.QueryingBootloader? then None
    else match event
      case BootloaderRead(mode, noDowngrade) => Some((mode, noDowngrade))
      case Failure(error) =>
        if error.code == ProtocolError || error.code == CborDecode then Some((Unknown, false)) else None
      case _ => None
  }

  /** What one event changes of it: the buffer size and the mode when they are told, the approval, a transfer. */
  predicate Recorded(plan: Plan, state: UpdateState, event: Event, c: Context, o: Outcome) {
    && (match BootloaderAnswer(state, event)
        case None => o.ctx.mode == c.mode && o.ctx.noDowngrade == c.noDowngrade
        case Some((told, noDowngrade)) =>
          && ModeRuling(plan, told, o.ctx.mode) && !Early(o.next)
          && o.ctx.noDowngrade == if event.Failure? then c.noDowngrade else noDowngrade)
    && o.ctx.bufSize == (if state.QueryingParameters? && event.ParametersRead? then event.bufSize else c.bufSize)
    && (o.ctx.spent.confirmApproved <==>
        c.spent.confirmApproved || (state.AwaitingConfirmation? && event.ConfirmApproved?))
    && |o.ctx.targets| == |c.targets|
    && (forall k :: 0 <= k < |c.targets| ==>
          o.ctx.targets[k].report.bytesTransferred
          == if state.Uploading? && event.UploadFinished? && k == c.current then event.transferred
             else c.targets[k].report.bytesTransferred)
    && (forall k :: 0 <= k < |c.targets| && AboutTarget(c.targets[k]) ==> AboutTarget(o.ctx.targets[k]))
  }

  lemma KeptSame(targets: seq<Image>)
    ensures Kept(targets, targets)
  {
  }

  /** The event tells the buffer size or the mode, approves, or ends an upload. */
  predicate Tells(state: UpdateState, event: Event) {
    || (state.QueryingParameters? && event.ParametersRead?) || BootloaderAnswer(state, event).Some?
    || (state.AwaitingConfirmation? && event.ConfirmApproved?)
    || (state.Uploading? && event.UploadFinished?)
  }

  lemma RetainedRecords(plan: Plan, state: UpdateState, event: Event, c: Context, o: Outcome)
    requires Retained(c, o.ctx) && !Tells(state, event)
    ensures Recorded(plan, state, event, c, o)
  {
    hide AboutTarget;
  }

  lemma QueryRecords(plan: Plan, state: UpdateState, event: Event, c: Context)
    requires Decidable(state, event, c)
    requires Early(state) || state.InspectingImages?
    ensures Recorded(plan, state, event, c, DecideQuery(plan, state, event, c))
  {
    hide AboutTarget;
  }

  lemma UploadRecords(plan: Plan, c: Context, transferred: nat, alreadyPresent: bool)
    requires c.current < |c.targets|
    ensures Recorded(plan, Uploading, UploadFinished(transferred, alreadyPresent), c,
                     AfterUpload(plan, c, transferred, alreadyPresent))
  {
    hide NextTarget, AboutTarget, NeedOf;
    var entry := c.targets[c.current].report;
    var noted := entry.(bytesTransferred := transferred, uploadSkipped := entry.uploadSkipped || alreadyPresent);
    var done := WithReport(c.(uploadInProgress := false), c.current, noted);
    StillAbout(c.targets[c.current], noted);
    NextTargetRetains(plan, done);
    KeptSame(done.targets);
  }

  lemma StillAbout(image: Image, entry: ImageReport)
    requires entry.image == image.report.image && entry.commit == image.report.commit
             && entry.targetHash == image.report.targetHash
    ensures AboutTarget(image.(report := entry)) <==> AboutTarget(image)
  {
  }

  lemma StagingRetains(plan: Plan, state: UpdateState, event: Event, c: Context)
    requires Decidable(state, event, c) && !(state.Uploading? && event.UploadFinished?)
    ensures Retained(c, DecideStaging(plan, state, event, c).ctx)
  {
    hide PlanFromState, NextTarget, UploadVerified, MarkRefused, ResetRefused, Kept, AfterUpload;
    KeptSame(c.targets);
    PlanFromStateRetains(plan, c);
    if event.Failure? {
      FailureRetains(state, event.error, c);
    } else if state.VerifyingUpload? && event.StateRead? {
      VerifiedRetains(plan, c.(device := event.table));
    } else if state.MarkingForTest? && event.MarkedForTest? {
      NextTargetRetains(plan, c.(device := event.table, swapScheduled := true));
    }
  }

  lemma VerifiedRetains(plan: Plan, c: Context)
    requires c.current < |c.targets|
    ensures Retained(c, UploadVerified(plan, c).ctx)
  {
    hide MarkOrSkip, AboutTarget;
    var t := Table(c);
    var holder := Holder(t, c.targets[c.current].target);
    if holder < |t| {
      var entry := c.targets[c.current].report.(uploadSlot := Some(t[holder].slot));
      EntryRetains(c, c.current, entry);
      MarkOrSkipRetains(plan, WithReport(c, c.current, entry));
    }
  }

  lemma FailureRetains(state: UpdateState, error: Error, c: Context)
    ensures Retained(c, WaitReadFailed(state, error, c).ctx) && Retained(c, ConfirmFailed(error, c).ctx)
    ensures Retained(c, MarkRefused(error, c).ctx) && Retained(c, ResetRefused(error, c).ctx)
  {
    hide Kept, Recoverable, SmpError;
    KeptSame(c.targets);
  }

  lemma ConfirmVerifiedRetains(c: Context)
    ensures Retained(c, ConfirmVerified(c).ctx)
  {
    hide Kept, AwaitCommit, AllClientsKept;
    KeptSame(c.targets);
    AwaitCommitRetains(c);
  }

  lemma BootedRetains(plan: Plan, state: UpdateState, event: Event, c: Context)
    requires Decidable(state, event, c) && !(state.AwaitingConfirmation? && event.ConfirmApproved?)
    ensures Retained(c, DecideBooted(plan, state, event, c).ctx)
  {
    hide InspectBoot, AwaitDevice, AwaitCommit, ConfirmVerified, WaitReadFailed, ConfirmFailed, Kept, AfterConfirm;
    KeptSame(c.targets);
    var d := c.(device := if CarriesTable(event) then event.table else c.device);
    if event.Failure? {
      FailureRetains(state, event.error, c);
    } else if event.StateRead? {
      InspectBootRetains(plan, d);
      AwaitDeviceRetains(plan, d);
      AwaitCommitRetains(d);
      ConfirmVerifiedRetains(d);
    } else if state.Confirming? {
      AfterConfirmRetains(d);
    }
  }

  lemma ApprovalRecords(plan: Plan, c: Context)
    requires Decidable(AwaitingConfirmation, ConfirmApproved, c)
    ensures Recorded(plan, AwaitingConfirmation, ConfirmApproved, c,
                     DecideBooted(plan, AwaitingConfirmation, ConfirmApproved, c))
  {
    hide AboutTarget;
  }

  lemma AfterConfirmRetains(c: Context)
    requires c.current < |c.targets|
    ensures Retained(c, AfterConfirm(c).ctx)
  {
    hide NextInTrial;
  }

  lemma DecideRecords(plan: Plan, state: UpdateState, event: Event, now: int, timers: Timers, c: Context)
    requires Decidable(state, event, c) && !IsTerminal(state)
    ensures Recorded(plan, state, event, c, Decide(plan, state, event, now, timers, c))
  {
    hide DecideQuery, DecideStaging, DecideBooted, Recorded, Kept;
    var o := Decide(plan, state, event, now, timers, c);
    if event.Cancel? || event.Tick? {
      KeptSame(c.targets);
      RetainedRecords(plan, state, event, c, o);
    } else if Early(state) || state.InspectingImages? {
      QueryRecords(plan, state, event, c);
    } else if state.Uploading? && event.UploadFinished? {
      UploadStep(plan, event, c);
      UploadRecords(plan, c, event.transferred, event.alreadyPresent);
    } else if state.AwaitingConfirmation? && event.ConfirmApproved? {
      ApprovalRecords(plan, c);
    } else {
      RestRetains(plan, state, event, now, timers, c);
      RetainedRecords(plan, state, event, c, o);
    }
  }

  lemma RestRetains(plan: Plan, state: UpdateState, event: Event, now: int, timers: Timers, c: Context)
    requires Decidable(state, event, c) && !IsTerminal(state) && !event.Cancel? && !event.Tick?
    requires !Early(state) && !state.InspectingImages? && !Tells(state, event)
    ensures Retained(c, Decide(plan, state, event, now, timers, c).ctx)
  {
    hide DecideQuery, DecideStaging, DecideBooted, Retained;
    if state.Planning? || state.Uploading? || state.VerifyingUpload? || state.MarkingForTest?
       || state.Resetting? || state.AwaitingDisconnect? || state.AwaitingReconnect? {
      StagingRetains(plan, state, event, c);
    } else {
      BootedRetains(plan, state, event, c);
    }
  }

  lemma UploadStep(plan: Plan, event: Event, c: Context)
    requires Decidable(Uploading, event, c) && event.UploadFinished?
    ensures DecideStaging(plan, Uploading, event, c) == AfterUpload(plan, c, event.transferred, event.alreadyPresent)
  {
    hide AfterUpload;
  }

  // --- Whole runs ----------------------------------------------------------------------------------

  lemma StepRecords(plan: Plan, r: Run)
    requires Disciplined(plan, r) && r.Then? && !IsTerminal(At(plan, r.before).state)
    ensures var b := At(plan, r.before); Recorded(plan, b.state, r.event, b.ctx, Latest(plan, r))
  {
    hide At, LastStep, Disciplined, Latest, Recorded, Decide, Decidable;
    LatestIs(plan, r);
    var b := At(plan, r.before);
    DecideRecords(plan, b.state, r.event, r.now, b.timers, b.ctx);
  }

  /** The buffer size the device told, or zero. */
  function BufferTold(plan: Plan, r: Run): nat {
    if r.Begin? then 0
    else if At(plan, r.before).state.QueryingParameters? && r.event.ParametersRead? then r.event.bufSize
    else BufferTold(plan, r.before)
  }

  /** The application has approved. */
  predicate Approved(plan: Plan, r: Run) {
    && r.Then?
    && (Approved(plan, r.before) || (At(plan, r.before).state.AwaitingConfirmation? && r.event.ConfirmApproved?))
  }

  /** What the bootloader answered, or nothing. */
  function BootloaderTold(plan: Plan, r: Run): Option<(McubootMode, bool)> {
    if r.Begin? then None
    else
      var answer := BootloaderAnswer(At(plan, r.before).state, r.event);
      if answer.Some? then answer else BootloaderTold(plan, r.before)
  }

  /** The octets transferred by the last upload of image `k` that finished. */
  function Transferred(plan: Plan, r: Run, k: nat): nat {
    if r.Begin? then 0
    else
      var b := At(plan, r.before);
      if b.state.Uploading? && r.event.UploadFinished? && b.ctx.current == k then r.event.transferred
      else Transferred(plan, r.before, k)
  }

  /** Buffer size, mode, approval and transfers are what the events told, and each report is about its target. */
  lemma {:induction false} ToldByEvents(plan: Plan, r: Run)
    requires Disciplined(plan, r)
    ensures var c := At(plan, r).ctx;
            && c.bufSize == BufferTold(plan, r)
            && (match BootloaderTold(plan, r)
                case None => c.mode == ModeRecord(Unknown, Assumed) && !c.noDowngrade
                case Some((told, noDowngrade)) => ModeRuling(plan, told, c.mode) && c.noDowngrade == noDowngrade)
            && (Early(At(plan, r).state) ==> BootloaderTold(plan, r).None?)
            && (c.spent.confirmApproved <==> Approved(plan, r))
            && (forall k :: 0 <= k < |c.targets| ==> c.targets[k].report.bytesTransferred == Transferred(plan, r, k))
            && (forall k :: 0 <= k < |c.targets| ==> AboutTarget(c.targets[k]))
  {
    hide At, LastStep, AboutTarget, Good, Course, Grounds, ModeRuling;
    match r
    case Begin(targets) => BeginsTold(plan, targets);
    case Then(before, event, now) =>
      ToldByEvents(plan, before);
      Stepped(plan, r);
      if !IsTerminal(At(plan, before).state) {
        StepRecords(plan, r);
      }
  }

  lemma BeginsTold(plan: Plan, targets: seq<Target>)
    ensures var c := At(plan, Begin(targets)).ctx;
            && c.bufSize == 0 && !c.spent.confirmApproved && c.mode == ModeRecord(Unknown, Assumed) && !c.noDowngrade
            && (forall k :: 0 <= k < |c.targets| ==> c.targets[k].report.bytesTransferred == 0)
            && (forall k :: 0 <= k < |c.targets| ==> AboutTarget(c.targets[k]))
  {
  }
}
