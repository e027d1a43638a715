/**
  What every event keeps true of the update machine, as long as the driver answers only what the
  machine asked.
 */
module UpdateInvariant {
  import opened Common
  import opened UpdateTypes
  import opened UpdateMachine

  /** At least one image carries the trial flag. */
  predicate SomeInTrial(c: Context) {
    NextInTrial(c.targets, 0) < |c.targets|
  }

  predicate TrialsAreClients(targets: seq<Image>) {
    forall k :: 0 <= k < |targets| && targets[k].inTrial ==> targets[k].target.commit.Client?
  }

  /** Nothing has been asked of the bootloader yet: the reset is still to come. */
  predicate PreBoot(state: UpdateState, c: Context) {
    || state.Idle? || state.QueryingParameters? || state.QueryingBootloader? || state.InspectingImages?
    || state.Planning? || state.Uploading? || state.VerifyingUpload? || state.MarkingForTest?
    || (state.AwaitingReconnect? && c.uploadInProgress)
  }

  /** Holds of the context whatever the state. */
  ghost predicate Base(c: Context) {
    && |c.targets| > 0
    && c.current <= |c.targets|
    && (SomeInTrial(c) ==> c.swapScheduled && !WithoutSetState(c))
    && TrialsAreClients(c.targets)
  }

  /** The part of the context that each state relies on. */
  ghost predicate Located(state: UpdateState, c: Context) {
    && (PreBoot(state, c) ==> c.current < |c.targets| && !SomeInTrial(c))
    && (state.AwaitingConfirmation? || state.Confirming? ==>
        c.current < |c.targets| && NextInTrial(c.targets, 0) == c.current)
    && (c.uploadInProgress ==> state.Uploading? || state.AwaitingReconnect? || IsTerminal(state))
    && (state.Uploading? ==> c.uploadInProgress)
    && (state.AwaitingDeviceApply? && c.swapScheduled ==> SomeInTrial(c))
    && (state.Resetting? || state.AwaitingDisconnect? ==> c.swapScheduled)
    && (WithoutSetState(c) ==> !state.MarkingForTest? && !state.VerifyingConfirmed?)
    && (state.Uploading? || state.VerifyingUpload? || state.MarkingForTest? || state.Resetting?
        || (state.AwaitingReconnect? && c.uploadInProgress)
        ==> c.spent.preconditionsChecked)
  }

  /** An upload-only update never gets past its uploads. */
  predicate WithinPlan(plan: Plan, state: UpdateState, c: Context) {
    plan.mode.UploadOnly? && !IsTerminal(state) ==>
        PreBoot(state, c) && !state.VerifyingUpload? && !state.MarkingForTest?
  }

  /**
    The verdict is given exactly when the update has failed, and is `Internal` only if the driver is
    to blame: `blamed` says that some event of the run brought such an error.
   */
  ghost predicate VerdictFits(blamed: bool, state: UpdateState, c: Context) {
    && (state.Failed? <==> c.verdict.cause.Some?)
    && (c.verdict.cause.Some? && c.verdict.cause.value.code.Internal? ==> blamed)
    && (c.verdict.refusal.Some? ==> state.Failed? && c.verdict.cause.value.code.UpdateRefused?)
    && ((state.Failed? || state.Cancelled?) && SomeInTrial(c) ==> c.verdict.revertPending)
  }

  ghost predicate Invariant(plan: Plan, blamed: bool, state: UpdateState, c: Context) {
    Base(c) && Located(state, c) && WithinPlan(plan, state, c) && VerdictFits(blamed, state, c)
  }

  /** The effects that can be outstanding in each state: what the driver has been asked for and not yet answered. */
  predicate Expects(state: UpdateState, outstanding: Effect) {
    if state.Idle? then outstanding.Nothing?
    else if state.QueryingParameters? then outstanding.QueryParameters?
    else if state.QueryingBootloader? then outstanding.QueryBootloader?
    else if state.Planning? then outstanding.Continue?
    else if state.Uploading? then outstanding.StartUpload? || outstanding.ResumeUpload?
    else if state.MarkingForTest? then outstanding.MarkForTest?
    else if state.Resetting? then outstanding.Reset? || outstanding.ForceReset?
    else if state.AwaitingDisconnect? then outstanding.AwaitDisconnect?
    else if state.AwaitingReconnect? then outstanding.RequestReconnect?
    else if Waiting(state) then outstanding.AwaitApply? || outstanding.ReadState?
    else if state.AwaitingConfirmation? then outstanding.RequestConfirmation?
    else if state.Confirming? then outstanding.Confirm?
    else if IsTerminal(state) then outstanding.Finish?
    else outstanding.ReadState?
  }

  /** What a step into `state` asks for; only a due poll asks for a read while waiting. */
  predicate Asks(state: UpdateState, effect: Effect) {
    Expects(state, effect) && !effect.Nothing? && (Waiting(state) ==> effect.AwaitApply?)
  }

  ghost predicate Kept(plan: Plan, blamed: bool, o: Outcome) {
    Invariant(plan, blamed, o.next, o.ctx) && Asks(o.next, o.effect)
  }

  /**
    Whether the driver may deliver `event` while `outstanding` is unanswered. Time and cancellation are always
    possible.
   */
  predicate Answers(outstanding: Effect, event: Event) {
    || event.Tick? || event.Cancel?
    || (outstanding.Nothing? && event.Start?)
    || (outstanding.Continue? && event.Proceed?)
    || (outstanding.QueryParameters? && (event.ParametersRead? || event.ParametersUnavailable?))
    || (outstanding.QueryBootloader? && (event.BootloaderRead? || event.Failure?))
    || (outstanding.ReadState? && ((event.StateRead? && event.table.Some?) || event.Failure?))
    || ((outstanding.StartUpload? || outstanding.ResumeUpload?)
        && (event.UploadFinished? || event.UploadSuspended? || event.Failure?))
    || (outstanding.MarkForTest? && ((event.MarkedForTest? && event.table.Some?) || event.Failure?))
    || ((outstanding.Reset? || outstanding.ForceReset?) && (event.ResetAccepted? || event.Failure?))
    || (outstanding.AwaitDisconnect? && event.Disconnected?)
    || (outstanding.RequestReconnect? && (event.Reconnected? || event.ReconnectFailed?))
    || (outstanding.RequestConfirmation? && event.ConfirmApproved?)
    || (outstanding.Confirm? && ((event.Confirmed? && event.table.Some?) || event.Failure?))
    || outstanding.Finish?
  }

  /** The error an event brings, if it brings one. */
  function ErrorIn(event: Event): Option<Error> {
    if event.Failure? || event.ReconnectFailed? then Some(event.error) else None
  }

  predicate BringsInternal(event: Event) {
    ErrorIn(event).Some? && ErrorIn(event).value.code.Internal?
  }

  /** Nothing is reported yet. */
  predicate Undecided(c: Context) {
    c.verdict.cause.None? && c.verdict.refusal.None?
  }

  /** Ready to be judged after a boot: nothing half-uploaded, nothing reported, not upload-only. */
  ghost predicate Judgeable(plan: Plan, c: Context) {
    Base(c) && Undecided(c) && !c.uploadInProgress && !plan.mode.UploadOnly?
  }

  lemma FailKept(plan: Plan, blamed: bool, c: Context, error: Error)
    requires Base(c) && Undecided(c) && (error.code.Internal? ==> blamed)
    ensures Kept(plan, blamed, Fail(c, error))
  {
  }

  lemma ObservedKeepsTrials(t: SlotTable, targets: seq<Image>, end: nat)
    ensures var r := ObservedBelow(t, targets, end);
            forall k :: 0 <= k < |targets| ==> r[k].inTrial == targets[k].inTrial && r[k].target == targets[k].target
  {
  }

  lemma {:induction false} FirstInTrial(targets: seq<Image>, from: nat, first: nat)
    requires from <= first <= |targets|
    requires forall k :: from <= k < first ==> !targets[k].inTrial
    requires first < |targets| ==> targets[first].inTrial
    ensures NextInTrial(targets, from) == first
  {
  }

  /** Observing the device leaves the trial flags alone. */
  lemma ObservedBase(c: Context, t: SlotTable, end: nat)
    requires Base(c)
    ensures var d := c.(targets := ObservedBelow(t, c.targets, end)); Base(d) && SomeInTrial(d) == SomeInTrial(c)
  {
    hide Reports;
    FirstInTrial(ObservedBelow(t, c.targets, end), 0, NextInTrial(c.targets, 0));
  }

  lemma AwaitCommitKept(plan: Plan, blamed: bool, c: Context)
    requires Judgeable(plan, c)
    ensures Kept(plan, blamed, AwaitCommit(c))
  {
    hide Lost, Reports, Table, ObservedBelow, Base, SomeInTrial;
    var t := Table(c);
    var lost := FirstLost(t, c.targets, 0);
    ObservedBase(c, t, lost);
    var d := c.(targets := ObservedBelow(t, c.targets, lost));
    if lost < |c.targets| {
      ReportBase(d, lost, d.targets[lost].report.(applied := false));
      FailKept(plan, blamed, WithReport(d, lost, d.targets[lost].report.(applied := false)), Error(UpdateFailed, None));
    }
  }

  lemma ReportBase(c: Context, i: nat, report: ImageReport)
    requires Base(c) && i < |c.targets|
    ensures Base(WithReport(c, i, report)) && SomeInTrial(WithReport(c, i, report)) == SomeInTrial(c)
  {
    FirstInTrial(WithReport(c, i, report).targets, 0, NextInTrial(c.targets, 0));
  }

  lemma ForkKept(plan: Plan, blamed: bool, c: Context)
    requires Judgeable(plan, c) && SomeInTrial(c)
    ensures Kept(plan, blamed, ConfirmationFork(plan, c))
  {
    assert NextInTrial(c.targets, 0) < |c.targets|;
  }

  lemma AwaitDeviceKept(plan: Plan, blamed: bool, c: Context)
    requires Judgeable(plan, c) && (c.swapScheduled ==> SomeInTrial(c))
    ensures Kept(plan, blamed, AwaitDevice(plan, c))
  {
    var t := Table(c);
    var failed := FirstFailed(t, c.targets, 0);
    var d := c.(targets := ObservedBelow(t, c.targets, failed));
    ObservedKeepsTrials(t, c.targets, failed);
    assert SomeInTrial(d) == SomeInTrial(c);
    assert Judgeable(plan, d);
    if failed < |c.targets| {
      FailKept(plan, blamed, d, Error(UpdateFailed, None));
    } else if exists k :: 0 <= k < |c.targets| && Reports(t, c.targets[k], Applying) {
      assert Kept(plan, blamed, Outcome(d, AwaitingDeviceApply, AwaitApply));
    } else if !c.swapScheduled {
      AwaitCommitKept(plan, blamed, d);
    } else {
      ForkKept(plan, blamed, d);
    }
  }

  /** What the boot inspection leaves behind, before anyone waits for the device. */
  lemma JudgedFacts(c: Context)
    ensures var d := Judged(c);
            && |d.targets| == |c.targets| && TrialsAreClients(d.targets)
            && (SomeInTrial(d) ==> d.swapScheduled && !WithoutSetState(d))
            && (d.swapScheduled ==>
                SomeInTrial(d) || exists k :: 0 <= k < |c.targets| && NotRun(Table(c), c.targets[k]))
  {
    hide AnythingPending, Runs, Keeps, Table, NoActiveSlot;
  }

  lemma InspectBootKept(plan: Plan, blamed: bool, c: Context)
    requires Judgeable(plan, c)
    ensures Kept(plan, blamed, InspectBoot(plan, c))
  {
    var d := Judged(c);
    JudgedFacts(c);
    assert Base(d) && Undecided(d) && !d.uploadInProgress;
    hide Judged, AwaitDevice, NotRun, NoActiveSlot, Table, Kept;
    FailKept(plan, blamed, c, Error(UpdateFailed, None));
    FailKept(plan, blamed, d, Error(UpdateFailed, None));
    if !exists k :: 0 <= k < |c.targets| && NotRun(Table(c), c.targets[k]) {
      AwaitDeviceKept(plan, blamed, d);
    }
  }

  lemma StagedKept(plan: Plan, blamed: bool, c: Context)
    requires Base(c) && Undecided(c) && !c.uploadInProgress && !SomeInTrial(c)
    ensures Kept(plan, blamed, Staged(plan, c))
  {
    if !plan.mode.UploadOnly? && !c.swapScheduled {
      InspectBootKept(plan, blamed, c);
    }
  }

  lemma NextTargetKept(plan: Plan, blamed: bool, c: Context)
    requires Base(c) && Undecided(c) && !c.uploadInProgress && !SomeInTrial(c) && c.current < |c.targets|
    ensures Kept(plan, blamed, NextTarget(plan, c))
  {
    hide Staged;
    var next := c.(current := c.current + 1, spent := c.spent.(markRetried := false));
    if next.current == |next.targets| {
      StagedKept(plan, blamed, next);
    }
  }

  lemma MarkOrSkipKept(plan: Plan, blamed: bool, c: Context)
    requires Base(c) && Undecided(c) && !c.uploadInProgress && !SomeInTrial(c) && c.current < |c.targets|
    requires c.spent.preconditionsChecked && !plan.mode.UploadOnly?
    ensures Kept(plan, blamed, MarkOrSkip(plan, c))
  {
    if WithoutSetState(c) {
      NextTargetKept(plan, blamed, c.(swapScheduled := true));
    }
  }

  lemma ChooseBuildKept(plan: Plan, blamed: bool, c: Context)
    requires Base(c) && Undecided(c) && !c.uploadInProgress && !SomeInTrial(c) && c.current < |c.targets|
    ensures match ChooseBuild(c)
            case Ok(d) => d.current == c.current && |d.targets| == |c.targets|
              && Base(d) && Undecided(d) && !d.uploadInProgress && !SomeInTrial(d)
            case Err(o) => Kept(plan, blamed, o)
  {
  }

  lemma SkipCurrentKept(c: Context, need: Need)
    requires Base(c) && Undecided(c) && !c.uploadInProgress && !SomeInTrial(c) && c.current < |c.targets| && need.Skip?
    ensures var d := SkipCurrent(c, need);
            d.current == c.current + 1 && |d.targets| == |c.targets|
            && Base(d) && Undecided(d) && !d.uploadInProgress && !SomeInTrial(d)
  {
  }

  lemma PlanUploadKept(plan: Plan, blamed: bool, c: Context)
    requires Base(c) && Undecided(c) && !c.uploadInProgress && !SomeInTrial(c) && c.current < |c.targets|
    ensures Kept(plan, blamed, PlanUpload(plan, c))
  {
  }

  lemma {:induction false} PlanFromKept(plan: Plan, blamed: bool, c: Context)
    requires Base(c) && Undecided(c) && !c.uploadInProgress && !SomeInTrial(c)
    ensures Kept(plan, blamed, PlanFrom(plan, c))
    decreases |c.targets| - c.current
  {
    if c.current >= |c.targets| {
      StagedKept(plan, blamed, c);
    } else {
      ChooseBuildKept(plan, blamed, c);
      if ChooseBuild(c).Ok? {
        var d := ChooseBuild(c).value;
        var need := NeedOf(plan, Table(d), d.targets[d.current].target, d.targets[d.current].report);
        match need
        case Skip(_, _) =>
          SkipCurrentKept(d, need);
          PlanFromKept(plan, blamed, SkipCurrent(d, need));
        case Mark(slot) => PlanMarkKept(plan, blamed, d, slot);
        case Upload => PlanUploadKept(plan, blamed, d);
      }
    }
  }

  lemma PlanMarkKept(plan: Plan, blamed: bool, c: Context, slot: nat)
    requires Base(c) && Undecided(c) && !c.uploadInProgress && !SomeInTrial(c) && c.current < |c.targets|
    requires !plan.mode.UploadOnly?
    ensures Kept(plan, blamed, PlanMark(plan, c, slot))
  {
    var entry := c.targets[c.current].report.(uploadSkipped := true);
    var checked := CheckPreconditions(plan, WithReport(c, c.current, entry));
    if checked.Ok? {
      MarkOrSkipKept(plan, blamed, checked.value.(targets := WithReport(c, c.current,
          entry.(uploadSlot := Some(slot))).targets));
    }
  }

  lemma AfterUploadKept(plan: Plan, blamed: bool, c: Context, transferred: nat, alreadyPresent: bool)
    requires Invariant(plan, blamed, Uploading, c)
    ensures Kept(plan, blamed, AfterUpload(plan, c, transferred, alreadyPresent))
  {
    var entry := c.targets[c.current].report;
    var done := WithReport(c.(uploadInProgress := false), c.current,
                           entry.(bytesTransferred := transferred, uploadSkipped := entry.uploadSkipped
                                  || alreadyPresent));
    assert Base(done) && !SomeInTrial(done);
    if plan.mode.UploadOnly? {
      NextTargetKept(plan, blamed, done);
    }
  }

  lemma UploadVerifiedKept(plan: Plan, blamed: bool, c: Context)
    requires Invariant(plan, blamed, VerifyingUpload, c)
    ensures Kept(plan, blamed, UploadVerified(plan, c))
  {
    var t := Table(c);
    var holder := Holder(t, c.targets[c.current].target);
    if holder < |t| {
      MarkOrSkipKept(plan, blamed, WithReport(c, c.current,
                                              c.targets[c.current].report.(uploadSlot := Some(t[holder].slot))));
    }
  }

  lemma PlanFromStateKept(plan: Plan, blamed: bool, c: Context)
    requires Invariant(plan, blamed, Planning, c)
    ensures Kept(plan, blamed, PlanFromState(plan, c))
  {
    if AfterReset(c) && !plan.mode.UploadOnly? {
      InspectBootKept(plan, blamed, c.(targets := SkipAll(c.targets)));
    } else {
      PlanFromKept(plan, blamed, c);
    }
  }

  lemma AfterConfirmKept(plan: Plan, blamed: bool, c: Context)
    requires Invariant(plan, blamed, Confirming, c)
    ensures Kept(plan, blamed, AfterConfirm(c))
  {
    var done := c.(targets := c.targets[c.current := c.targets[c.current].(inTrial := false)]);
    var next := done.(current := NextInTrial(done.targets, done.current));
    FirstInTrial(next.targets, 0, next.current);
  }

  lemma ConfirmFailedKept(plan: Plan, blamed: bool, c: Context, error: Error)
    requires Judgeable(plan, c) && (error.code.Internal? ==> blamed)
    ensures Kept(plan, blamed, ConfirmFailed(error, c))
  {
  }

  lemma ConfirmVerifiedKept(plan: Plan, blamed: bool, c: Context)
    requires Judgeable(plan, c)
    ensures Kept(plan, blamed, ConfirmVerified(c))
  {
    AwaitCommitKept(plan, blamed, c);
    FailKept(plan, blamed, c.(swapScheduled := true), Error(UpdateFailed, None));
  }

  lemma MarkRefusedKept(plan: Plan, blamed: bool, c: Context, error: Error)
    requires Invariant(plan, blamed, MarkingForTest, c) && (error.code.Internal? ==> blamed)
    ensures Kept(plan, blamed, MarkRefused(error, c))
  {
    FailKept(plan, blamed, c, error);
  }

  lemma ResetRefusedKept(plan: Plan, blamed: bool, c: Context, error: Error)
    requires Invariant(plan, blamed, Resetting, c) && (error.code.Internal? ==> blamed)
    ensures Kept(plan, blamed, ResetRefused(error, c))
  {
    FailKept(plan, blamed, c, error);
  }

  // --- One decision ------------------------------------------------------------------------------

  /** While the update runs, nothing is reported. */
  lemma RunningFacts(plan: Plan, blamed: bool, state: UpdateState, c: Context)
    requires Invariant(plan, blamed, state, c) && !IsTerminal(state)
    ensures Base(c) && Undecided(c) && Located(state, c)
    ensures !PreBoot(state, c) ==> Judgeable(plan, c)
    ensures !state.Uploading? && !state.AwaitingReconnect? ==> !c.uploadInProgress
  {
  }

  /** Before anything is staged, a step that touches neither the targets nor the verdict is harmless. */
  lemma EarlyKept(plan: Plan, blamed: bool, state: UpdateState, c: Context, next: UpdateState, d: Context)
    requires Invariant(plan, blamed, state, c) && PreBoot(state, c) && !c.uploadInProgress && !IsTerminal(state)
    requires next.QueryingParameters? || next.QueryingBootloader? || next.InspectingImages? || next.Planning?
    requires d == c.(bufSize := d.bufSize, noDowngrade := d.noDowngrade, device := d.device,
                     mode := d.mode)
    ensures Invariant(plan, blamed, next, d)
  {
  }

  /** A new table changes nothing the invariant speaks of. */
  lemma TableKept(plan: Plan, blamed: bool, state: UpdateState, c: Context, table: Option<SlotTable>)
    requires Invariant(plan, blamed, state, c) && !IsTerminal(state)
    ensures Invariant(plan, blamed, state, c.(device := table))
  {
  }

  /** So is waiting for the link, and coming back from it. */
  lemma LinkKept(plan: Plan, blamed: bool, state: UpdateState, c: Context, next: UpdateState)
    requires Invariant(plan, blamed, state, c)
    requires || (state.Uploading? && next.AwaitingReconnect?)
             || (state.Resetting? && next.AwaitingDisconnect?)
             || (state.AwaitingDisconnect? && next.AwaitingReconnect?)
             || (Waiting(state) && next.AwaitingReconnect?)
             || (state.AwaitingReconnect? && next == if c.uploadInProgress then Uploading else VerifyingBooted)
    ensures Invariant(plan, blamed, next, c)
  {
  }

  lemma WaitReadFailedKept(plan: Plan, blamed: bool, state: UpdateState, c: Context, error: Error)
    requires state.AwaitingDeviceApply? || state.AwaitingDeviceCommit?
    requires Invariant(plan, blamed, state, c) && (error.code.Internal? ==> blamed)
    ensures Kept(plan, blamed, WaitReadFailed(state, error, c))
  {
    hide Invariant, Base, Located;
    RunningFacts(plan, blamed, state, c);
    FailKept(plan, blamed, c, error);
    LinkKept(plan, blamed, state, c, AwaitingReconnect);
  }

  lemma ApprovalKept(plan: Plan, blamed: bool, c: Context)
    requires Invariant(plan, blamed, AwaitingConfirmation, c)
    ensures Kept(plan, blamed, Outcome(c.(spent := c.spent.(confirmApproved := true)), Confirming, Confirm))
  {
  }

  lemma TickKept(plan: Plan, blamed: bool, state: UpdateState, now: int, timers: Timers, c: Context)
    requires Invariant(plan, blamed, state, c) && !IsTerminal(state)
    ensures var o := OnTick(state, now, timers, c);
            Invariant(plan, blamed, o.next, o.ctx)
  {
    hide Invariant, Base, Located;
    RunningFacts(plan, blamed, state, c);
    FailKept(plan, blamed, c, Error(Timeout, None));
    if state.AwaitingDisconnect? {
      LinkKept(plan, blamed, state, c, AwaitingReconnect);
    }
  }

  lemma CancelKept(plan: Plan, blamed: bool, state: UpdateState, c: Context)
    requires Invariant(plan, blamed, state, c) && !IsTerminal(state)
    ensures Kept(plan, blamed, Outcome(WithVerdict(c, c.verdict.(revertPending := c.swapScheduled)), Cancelled, Finish))
  {
  }

  /** An event that is neither time nor a cancellation and answers what is outstanding. */
  predicate Reply(blamed: bool, outstanding: Effect, event: Event) {
    Answers(outstanding, event) && !event.Tick? && !event.Cancel? && (BringsInternal(event) ==> blamed)
  }

  /** A query's answer leads on without touching the targets or the verdict, or fails. */
  lemma QueryShape(plan: Plan, state: UpdateState, event: Event, c: Context, outstanding: Effect)
    requires state.Idle? || state.QueryingParameters? || state.QueryingBootloader? || state.InspectingImages?
    requires Expects(state, outstanding) && Reply(true, outstanding, event) && Decidable(state, event, c)
    ensures var o := DecideQuery(plan, state, event, c);
            || (event.Failure? && o == Fail(c, event.error))
            || (&& (o.next.QueryingParameters? || o.next.QueryingBootloader? || o.next.InspectingImages?
                    || o.next.Planning?)
                && o.ctx == c.(bufSize := o.ctx.bufSize, noDowngrade := o.ctx.noDowngrade, device := o.ctx.device,
                               mode := o.ctx.mode)
                && (o.next.Planning? ==> CarriesTable(event))
                && (state.InspectingImages? ==> o.next.Planning? && o.ctx.mode == c.mode)
                && o.ctx.device == (if CarriesTable(event) then event.table else c.device)
                && Asks(o.next, o.effect))
  {
    hide RecordMode;
  }

  lemma QueryKept(plan: Plan, blamed: bool, state: UpdateState, event: Event, c: Context, outstanding: Effect)
    requires state.Idle? || state.QueryingParameters? || state.QueryingBootloader? || state.InspectingImages?
    requires Invariant(plan, blamed, state, c) && Expects(state, outstanding) && Reply(blamed, outstanding, event)
    requires Decidable(state, event, c)
    ensures Kept(plan, blamed, DecideQuery(plan, state, event, c))
  {
    hide Invariant, Base, Located, DecideQuery, Fail, Answers, Expects;
    RunningFacts(plan, blamed, state, c);
    QueryShape(plan, state, event, c, outstanding);
    var o := DecideQuery(plan, state, event, c);
    if event.Failure? && o == Fail(c, event.error) {
      FailKept(plan, blamed, c, event.error);
    } else {
      EarlyKept(plan, blamed, state, c, o.next, o.ctx);
    }
  }

  lemma PlanningKept(plan: Plan, blamed: bool, event: Event, c: Context)
    requires Invariant(plan, blamed, Planning, c) && Reply(blamed, Continue, event) && Decidable(Planning, event, c)
    ensures Kept(plan, blamed, DecideStaging(plan, Planning, event, c))
  {
    hide Kept, PlanFromState, AfterUpload, UploadVerified, NextTarget, MarkRefused, ResetRefused;
    PlanFromStateKept(plan, blamed, c);
  }

  lemma UploadingKept(plan: Plan, blamed: bool, event: Event, c: Context, outstanding: Effect)
    requires Invariant(plan, blamed, Uploading, c) && Expects(Uploading, outstanding)
             && Reply(blamed, outstanding, event)
    requires Decidable(Uploading, event, c)
    ensures Kept(plan, blamed, DecideStaging(plan, Uploading, event, c))
  {
    hide Invariant, Base, Located, PlanFromState, AfterUpload, UploadVerified, NextTarget, MarkRefused, ResetRefused;
    RunningFacts(plan, blamed, Uploading, c);
    if event.Failure? {
      FailKept(plan, blamed, c, event.error);
    } else if event.UploadFinished? {
      AfterUploadKept(plan, blamed, c, event.transferred, event.alreadyPresent);
    } else {
      LinkKept(plan, blamed, Uploading, c, AwaitingReconnect);
    }
  }

  lemma VerifyingUploadKept(plan: Plan, blamed: bool, event: Event, c: Context)
    requires Invariant(plan, blamed, VerifyingUpload, c) && Reply(blamed, ReadState, event)
             && Decidable(VerifyingUpload, event, c)
    ensures Kept(plan, blamed, DecideStaging(plan, VerifyingUpload, event, c))
  {
    hide Invariant, Base, Located, PlanFromState, AfterUpload, UploadVerified, NextTarget, MarkRefused, ResetRefused;
    RunningFacts(plan, blamed, VerifyingUpload, c);
    if event.Failure? {
      FailKept(plan, blamed, c, event.error);
    } else {
      TableKept(plan, blamed, VerifyingUpload, c, event.table);
      UploadVerifiedKept(plan, blamed, c.(device := event.table));
    }
  }

  lemma MarkingKept(plan: Plan, blamed: bool, event: Event, c: Context)
    requires Invariant(plan, blamed, MarkingForTest, c) && Reply(blamed, MarkForTest, event)
             && Decidable(MarkingForTest, event, c)
    ensures Kept(plan, blamed, DecideStaging(plan, MarkingForTest, event, c))
  {
    hide Invariant, PlanFromState, AfterUpload, UploadVerified, NextTarget, MarkRefused, ResetRefused;
    RunningFacts(plan, blamed, MarkingForTest, c);
    if event.Failure? {
      MarkRefusedKept(plan, blamed, c, event.error);
    } else {
      NextTargetKept(plan, blamed, c.(device := event.table, swapScheduled := true));
    }
  }

  lemma ResettingKept(plan: Plan, blamed: bool, event: Event, c: Context, outstanding: Effect)
    requires Invariant(plan, blamed, Resetting, c) && Expects(Resetting, outstanding)
             && Reply(blamed, outstanding, event)
    requires Decidable(Resetting, event, c)
    ensures Kept(plan, blamed, DecideStaging(plan, Resetting, event, c))
  {
    hide Invariant, Base, Located, PlanFromState, AfterUpload, UploadVerified, NextTarget, MarkRefused, ResetRefused;
    RunningFacts(plan, blamed, Resetting, c);
    if event.Failure? {
      ResetRefusedKept(plan, blamed, c, event.error);
    } else {
      LinkKept(plan, blamed, Resetting, c, AwaitingDisconnect);
    }
  }

  lemma LinkWaitKept(plan: Plan, blamed: bool, state: UpdateState, event: Event, c: Context, outstanding: Effect)
    requires state.AwaitingDisconnect? || state.AwaitingReconnect?
    requires Invariant(plan, blamed, state, c) && Expects(state, outstanding) && Reply(blamed, outstanding, event)
    requires Decidable(state, event, c)
    ensures Kept(plan, blamed, DecideStaging(plan, state, event, c))
  {
    hide Invariant, Base, Located, PlanFromState, AfterUpload, UploadVerified, NextTarget, MarkRefused, ResetRefused;
    RunningFacts(plan, blamed, state, c);
    if event.ReconnectFailed? {
      FailKept(plan, blamed, c, event.error);
    } else {
      LinkKept(plan, blamed, state, c, DecideStaging(plan, state, event, c).next);
    }
  }

  lemma WaitingKept(plan: Plan, blamed: bool, state: UpdateState, event: Event, c: Context)
    requires state.VerifyingBooted? || state.AwaitingDeviceApply? || state.AwaitingDeviceCommit?
    requires Invariant(plan, blamed, state, c) && Reply(blamed, ReadState, event) && Decidable(state, event, c)
    ensures Kept(plan, blamed, DecideBooted(plan, state, event, c))
  {
    hide Invariant, Base, Located, InspectBoot, AwaitDevice, AwaitCommit, WaitReadFailed, ConfirmFailed,
        ConfirmVerified, AfterConfirm;
    RunningFacts(plan, blamed, state, c);
    if event.Failure? {
      if state.VerifyingBooted? {
        FailKept(plan, blamed, c, event.error);
      } else {
        WaitReadFailedKept(plan, blamed, state, c, event.error);
      }
    } else {
      var read := c.(device := event.table);
      TableKept(plan, blamed, state, c, event.table);
      RunningFacts(plan, blamed, state, read);
      if state.VerifyingBooted? {
        InspectBootKept(plan, blamed, read);
      } else if state.AwaitingDeviceApply? {
        AwaitDeviceKept(plan, blamed, read);
      } else {
        AwaitCommitKept(plan, blamed, read);
      }
    }
  }

  lemma ConfirmingKept(plan: Plan, blamed: bool, event: Event, c: Context)
    requires Invariant(plan, blamed, Confirming, c) && Reply(blamed, Confirm, event) && Decidable(Confirming, event, c)
    ensures Kept(plan, blamed, DecideBooted(plan, Confirming, event, c))
  {
    hide Invariant, Base, Located, InspectBoot, AwaitDevice, AwaitCommit, WaitReadFailed, ConfirmFailed,
        ConfirmVerified, AfterConfirm;
    if event.Failure? {
      RunningFacts(plan, blamed, Confirming, c);
      ConfirmFailedKept(plan, blamed, c, event.error);
    } else {
      TableKept(plan, blamed, Confirming, c, event.table);
      AfterConfirmKept(plan, blamed, c.(device := event.table));
    }
  }

  lemma VerifyingConfirmedKept(plan: Plan, blamed: bool, event: Event, c: Context)
    requires Invariant(plan, blamed, VerifyingConfirmed, c) && Reply(blamed, ReadState, event)
             && Decidable(VerifyingConfirmed, event, c)
    ensures Kept(plan, blamed, DecideBooted(plan, VerifyingConfirmed, event, c))
  {
    hide Invariant, Base, Located, InspectBoot, AwaitDevice, AwaitCommit, WaitReadFailed, ConfirmFailed,
        ConfirmVerified, AfterConfirm;
    if event.Failure? {
      RunningFacts(plan, blamed, VerifyingConfirmed, c);
      ConfirmFailedKept(plan, blamed, c, event.error);
    } else {
      TableKept(plan, blamed, VerifyingConfirmed, c, event.table);
      RunningFacts(plan, blamed, VerifyingConfirmed, c.(device := event.table));
      ConfirmVerifiedKept(plan, blamed, c.(device := event.table));
    }
  }

  lemma AwaitingConfirmationKept(plan: Plan, blamed: bool, event: Event, c: Context)
    requires Invariant(plan, blamed, AwaitingConfirmation, c) && Reply(blamed, RequestConfirmation, event)
    requires Decidable(AwaitingConfirmation, event, c)
    ensures Kept(plan, blamed, DecideBooted(plan, AwaitingConfirmation, event, c))
  {
    hide Invariant, Base, Located, InspectBoot, AwaitDevice, AwaitCommit, WaitReadFailed, ConfirmFailed,
        ConfirmVerified, AfterConfirm;
    ApprovalKept(plan, blamed, c);
  }

  lemma AnswersDecidable(plan: Plan, blamed: bool, state: UpdateState, event: Event, c: Context, outstanding: Effect)
    requires Invariant(plan, blamed, state, c) && Expects(state, outstanding) && !IsTerminal(state)
    requires Answers(outstanding, event)
    ensures Decidable(state, event, c)
  {
  }

  /** One decision keeps the invariant and leaves the driver with a request its state explains. */
  lemma DecideKept(plan: Plan, blamed: bool, state: UpdateState, event: Event, now: int, timers: Timers, c: Context,
                   outstanding: Effect)
    requires Invariant(plan, blamed, state, c) && Expects(state, outstanding) && !IsTerminal(state)
    requires Answers(outstanding, event) && (BringsInternal(event) ==> blamed)
    ensures Decidable(state, event, c)
    ensures var o := Decide(plan, state, event, now, timers, c);
            Invariant(plan, blamed, o.next, o.ctx) && (event.Tick? || Asks(o.next, o.effect))
                && (event.Cancel? ==> o.effect.Finish?)
  {
    hide Invariant, DecideQuery, DecideStaging, DecideBooted, OnTick;
    AnswersDecidable(plan, blamed, state, event, c, outstanding);
    if event.Tick? {
      TickKept(plan, blamed, state, now, timers, c);
    } else if event.Cancel? {
      CancelKept(plan, blamed, state, c);
    } else {
      if state.Idle? || state.QueryingParameters? || state.QueryingBootloader? || state.InspectingImages? {
        QueryKept(plan, blamed, state, event, c, outstanding);
      } else if state.Planning? {
        PlanningKept(plan, blamed, event, c);
      } else if state.Uploading? {
        UploadingKept(plan, blamed, event, c, outstanding);
      } else if state.VerifyingUpload? {
        VerifyingUploadKept(plan, blamed, event, c);
      } else if state.MarkingForTest? {
        MarkingKept(plan, blamed, event, c);
      } else if state.Resetting? {
        ResettingKept(plan, blamed, event, c, outstanding);
      } else if state.AwaitingDisconnect? || state.AwaitingReconnect? {
        LinkWaitKept(plan, blamed, state, event, c, outstanding);
      } else if state.VerifyingBooted? || Waiting(state) {
        WaitingKept(plan, blamed, state, event, c);
      } else if state.Confirming? {
        ConfirmingKept(plan, blamed, event, c);
      } else if state.VerifyingConfirmed? {
        VerifyingConfirmedKept(plan, blamed, event, c);
      } else {
        AwaitingConfirmationKept(plan, blamed, event, c);
      }
    }
  }

  // --- The whole machine -------------------------------------------------------------------------

  /** At most one deadline is armed, and only in the state that waits on it. */
  predicate TimersFit(state: UpdateState, outstanding: Effect, timers: Timers) {
    && (timers.grace.Some? ==> state.AwaitingDisconnect?)
    && (timers.poll.Some? <==> outstanding.AwaitApply?)
    && (timers.phase.Some? <==> timers.deadline.Some?)
    && (Waiting(state) ==> timers.phase == Some(state))
  }

  /** What happens to the timers when `event` leads from `state` to `next` with `effect`. */
  function TimersAfter(plan: Plan, state: UpdateState, event: Event, now: int, timers: Timers, next: UpdateState,
                       effect: Effect): Timers {
    KeepTime(next, effect, now, plan, if event.Tick? && PollDue(state, now, timers) then timers.(poll := None)
             else timers)
  }

  lemma ReplyTimers(plan: Plan, state: UpdateState, outstanding: Effect, event: Event, now: int, timers: Timers,
                    next: UpdateState, effect: Effect)
    requires TimersFit(state, outstanding, timers) && Expects(state, outstanding) && !IsTerminal(state)
    requires Answers(outstanding, event) && !event.Tick? && Asks(next, effect) && (event.Cancel? ==> effect.Finish?)
    ensures TimersFit(next, effect, TimersAfter(plan, state, event, now, timers, next, effect))
  {
  }

  lemma TickTimers(plan: Plan, state: UpdateState, outstanding: Effect, now: int, timers: Timers, c: Context)
    requires TimersFit(state, outstanding, timers) && Expects(state, outstanding) && !IsTerminal(state)
    ensures var o := OnTick(state, now, timers, c);
            var after := if o.effect.Nothing? then outstanding else o.effect;
            Expects(o.next, after) && TimersFit(o.next, after,
                                                TimersAfter(plan, state, Tick, now, timers, o.next, o.effect))
  {
  }

  ghost predicate Good(plan: Plan, blamed: bool, m: MachineState, outstanding: Effect) {
    && Invariant(plan, blamed, m.state, m.ctx)
    && Expects(m.state, outstanding)
    && TimersFit(m.state, outstanding, m.timers)
    && (IsTerminal(m.state) ==> m.summary == Summarised(m.ctx.targets))
    && (IsTerminal(m.state) ==> m.ending == Ending(m.state, Some(m.ctx.targets[0].target.hash), m.ctx.device))
  }

  /** What is outstanding once a step has been handed out: a step that asks for nothing leaves the last request open. */
  function Next(outstanding: Effect, step: Step): Effect {
    if step.effect.Nothing? then outstanding else step.effect
  }
}
