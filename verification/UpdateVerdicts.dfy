/**
  What each slot table read after the reset leads to, stated on its rows: which image has failed, what is
  waited for, what is reported, and when the update completes.
 */
module UpdateVerdicts {
  import opened Common
  import opened UpdateTypes
  import opened UpdateMachine
  import opened UpdateInvariant
  import opened UpdateRuns
  import opened UpdateRecovery
  import opened UpdateRows

  // --- Images by what a table shows of them --------------------------------------------------------

  predicate IsDevice(image: Image) {
    image.target.commit == Device
  }

  /** The device neither runs this image of its own nor has it scheduled. */
  predicate Abandoned(t: SlotTable, image: Image) {
    IsDevice(image) && !RunsFile(t, image.target) && !FileScheduled(t, image.target)
  }

  /** The device is still to run this image of its own. */
  predicate Underway(t: SlotTable, image: Image) {
    IsDevice(image) && !RunsFile(t, image.target) && FileScheduled(t, image.target)
  }

  /** The device runs this image of its own and has yet to confirm it. */
  predicate Uncommitted(t: SlotTable, image: Image) {
    IsDevice(image) && RunsFile(t, image.target) && !KeepsFile(t, image.target)
  }

  /** What the table adds to what is reported of an image: only of the device's own images. */
  function Noted(t: SlotTable, image: Image): ImageReport {
    if !IsDevice(image) then image.report
    else image.report.(applied := image.report.applied || RunsFile(t, image.target),
                       committed := image.report.committed || KeepsFile(t, image.target))
  }

  /** The client is to confirm this image. */
  predicate Owed(t: SlotTable, image: Image, mode: McubootMode) {
    image.target.commit == Client && RunsFile(t, image.target) && !KeepsFile(t, image.target) && mode != DirectXip
  }

  /** The image is not what the device runs. */
  predicate Astray(t: SlotTable, image: Image) {
    image.target.commit == Client && !RunsFile(t, image.target)
  }

  lemma Told(t: SlotTable, image: Image)
    ensures Reports(t, image, ApplyFailed) <==> Abandoned(t, image)
    ensures Reports(t, image, Applying) <==> Underway(t, image)
    ensures Reports(t, image, OnTrial) <==> Uncommitted(t, image)
    ensures Reports(t, image, Committed) <==> IsDevice(image) && KeepsFile(t, image.target)
    ensures Observed(t, image) == image.(report := Noted(t, image))
    ensures NotRun(t, image) <==> Astray(t, image)
    ensures Reverted(t, image) <==> Astray(t, image) && !ImageScheduled(t, image.target.image)
    ensures NotBooted(t, image) <==> Astray(t, image) && ImageScheduled(t, image.target.image)
    ensures RunningOnTrial(t, image.target) <==> image.target.commit == Client && RunsFile(t, image.target)
                                                 && !KeepsFile(t, image.target)
    ensures NoActiveSlot(t, image) <==> image.target.commit == Client && !RunsSomething(t, image.target.image)
  {
    RowsRead(t, image.target);
    hide Runs, RunsFile, KeepsFile, RunsSomething, FileScheduled, ImageScheduled, AnythingPending, Holder, Active;
  }

  // --- Waiting for the device ----------------------------------------------------------------------

  /** The update has failed with this code, and says whether the device will undo what was scheduled. */
  predicate Fails(o: Outcome, code: ErrorCode, reverts: bool) {
    o.next == Failed && o.effect == Finish && o.ctx.verdict.cause == Some(Error(code, None))
    && o.ctx.verdict.revertPending == reverts
  }

  /** Reports of the images below `end` are brought up to date, the others left. */
  predicate NotedBelow(t: SlotTable, before: seq<Image>, after: seq<Image>, end: nat) {
    && |after| == |before|
    && forall k :: 0 <= k < |before| ==>
         after[k].report == if k < end then Noted(t, before[k]) else before[k].report
  }

  /** The wait for the device's commit. */
  predicate CommitRuling(t: SlotTable, c: Context, o: Outcome) {
    if exists k :: 0 <= k < |c.targets| && IsDevice(c.targets[k]) && !RunsFile(t, c.targets[k].target) then
      Fails(o, UpdateFailed, c.swapScheduled)
    else
      && NotedBelow(t, c.targets, o.ctx.targets, |c.targets|)
      && (if exists k :: 0 <= k < |c.targets| && Uncommitted(t, c.targets[k]) then
            o.next == AwaitingDeviceCommit && o.effect == AwaitApply
          else o.next == Completed && o.effect == Finish)
  }

  lemma CommitRuled(c: Context)
    ensures CommitRuling(Table(c), c, AwaitCommit(c))
  {
    hide Reports, Observed, RunsFile, KeepsFile, FileScheduled, Table;
    var t := Table(c);
    forall k | 0 <= k < |c.targets|
      ensures Lost(t, c.targets[k]) <==> IsDevice(c.targets[k]) && !RunsFile(t, c.targets[k].target)
      ensures Observed(t, c.targets[k]).report == Noted(t, c.targets[k])
      ensures Reports(t, c.targets[k], OnTrial) <==> Uncommitted(t, c.targets[k])
    {
      Told(t, c.targets[k]);
    }
  }

  /** The question, or the confirm if the answer is known, about the first image on trial. */
  predicate Forks(plan: Plan, c: Context, o: Outcome) {
    && (if plan.mode == ConfirmImmediately || c.spent.confirmApproved then o.next == Confirming && o.effect == Confirm
        else o.next == AwaitingConfirmation && o.effect == RequestConfirmation)
    && (o.ctx.current < |c.targets| ==> c.targets[o.ctx.current].inTrial)
    && (forall k :: 0 <= k < |c.targets| && k < o.ctx.current ==> !c.targets[k].inTrial)
  }

  /** The wait for the device's apply; `c.swapScheduled` says that a confirm is owed. */
  predicate ApplyRuling(plan: Plan, t: SlotTable, c: Context, o: Outcome) {
    if exists k :: 0 <= k < |c.targets| && Abandoned(t, c.targets[k]) then Fails(o, UpdateFailed, c.swapScheduled)
    else
      && NotedBelow(t, c.targets, o.ctx.targets, |c.targets|)
      && (if exists k :: 0 <= k < |c.targets| && Underway(t, c.targets[k]) then
            o.next == AwaitingDeviceApply && o.effect == AwaitApply
          else if c.swapScheduled then Forks(plan, c, o)
          else if exists k :: 0 <= k < |c.targets| && Uncommitted(t, c.targets[k]) then
            o.next == AwaitingDeviceCommit && o.effect == AwaitApply
          else o.next == Completed && o.effect == Finish)
  }

  lemma NotedOnce(t: SlotTable, image: Image)
    ensures Noted(t, image.(report := Noted(t, image))) == Noted(t, image)
  {
    hide RunsFile, KeepsFile;
  }

  lemma AllTold(t: SlotTable, targets: seq<Image>)
    ensures forall k :: 0 <= k < |targets| ==>
              && (Reports(t, targets[k], ApplyFailed) <==> Abandoned(t, targets[k]))
              && (Reports(t, targets[k], Applying) <==> Underway(t, targets[k]))
              && Observed(t, targets[k]) == targets[k].(report := Noted(t, targets[k]))
  {
    hide Reports, Observed, Noted, Abandoned, Underway;
    forall k | 0 <= k < |targets|
      ensures Reports(t, targets[k], ApplyFailed) <==> Abandoned(t, targets[k])
      ensures Reports(t, targets[k], Applying) <==> Underway(t, targets[k])
      ensures Observed(t, targets[k]) == targets[k].(report := Noted(t, targets[k]))
    {
      Told(t, targets[k]);
    }
  }

  lemma NotedAll(t: SlotTable, targets: seq<Image>)
    ensures NotedBelow(t, targets, ObservedBelow(t, targets, |targets|), |targets|)
    ensures forall k :: 0 <= k < |targets| ==>
              ObservedBelow(t, targets, |targets|)[k] == targets[k].(report := Noted(t, targets[k]))
  {
    hide Reports, Observed, Noted, Abandoned, Underway;
    AllTold(t, targets);
  }

  lemma ForkRuled(plan: Plan, t: SlotTable, c: Context, d: Context)
    requires |d.targets| == |c.targets| && d.spent == c.spent
    requires forall k :: 0 <= k < |c.targets| ==> d.targets[k].inTrial == c.targets[k].inTrial
    ensures Forks(plan, c, ConfirmationFork(plan, d)) && ConfirmationFork(plan, d).ctx.targets == d.targets
  {
  }

  lemma ApplyRuled(plan: Plan, c: Context)
    ensures ApplyRuling(plan, Table(c), c, AwaitDevice(plan, c))
  {
    hide Reports, Observed, ObservedBelow, NotedBelow, Noted, Abandoned, Underway, Uncommitted, Table, AwaitCommit,
         CommitRuling, ConfirmationFork, Forks;
    var t := Table(c);
    var failed := FirstFailed(t, c.targets, 0);
    var d := c.(targets := ObservedBelow(t, c.targets, failed));
    AllTold(t, c.targets);
    if failed == |c.targets| {
      NotedAll(t, c.targets);
      ObservedKeepsTrials(t, c.targets, failed);
      ForkRuled(plan, t, c, d);
      if !c.swapScheduled && !exists k :: 0 <= k < |c.targets| && Reports(t, c.targets[k], Applying) {
        SameTable(c, d);
        CommitRuled(d);
        CommitAfterApply(t, c, d, AwaitCommit(d));
      }
    }
  }

  /** Judged a second time on the same table, nothing is added to the reports. */
  lemma CommitAfterApply(t: SlotTable, c: Context, d: Context, o: Outcome)
    requires |d.targets| == |c.targets| && CommitRuling(t, d, o)
    requires forall k :: 0 <= k < |c.targets| ==> d.targets[k] == c.targets[k].(report := Noted(t, c.targets[k]))
    requires forall k :: 0 <= k < |c.targets| ==> !Abandoned(t, c.targets[k]) && !Underway(t, c.targets[k])
    ensures NotedBelow(t, c.targets, o.ctx.targets, |c.targets|)
    ensures if exists k :: 0 <= k < |c.targets| && Uncommitted(t, c.targets[k]) then
              o.next == AwaitingDeviceCommit && o.effect == AwaitApply
            else o.next == Completed && o.effect == Finish
  {
    hide RunsFile, KeepsFile, FileScheduled;
    forall k | 0 <= k < |c.targets|
      ensures Noted(t, d.targets[k]) == Noted(t, c.targets[k])
      ensures Uncommitted(t, d.targets[k]) <==> Uncommitted(t, c.targets[k])
      ensures !(IsDevice(d.targets[k]) && !RunsFile(t, d.targets[k].target))
    {
      NotedOnce(t, c.targets[k]);
    }
  }

  lemma SameTable(c: Context, d: Context)
    requires c.device == d.device
    ensures Table(c) == Table(d)
  {
  }

  // --- The check after a boot ----------------------------------------------------------------------

  /** The context with a confirm owed to each image on trial. */
  function TrialsOf(t: SlotTable, c: Context): Context {
    c.(targets := seq(|c.targets|, k requires 0 <= k < |c.targets| =>
                        c.targets[k].(inTrial := Owed(t, c.targets[k], c.mode.mode))),
       swapScheduled := exists k :: 0 <= k < |c.targets| && Owed(t, c.targets[k], c.mode.mode))
  }

  /** Each image that has strayed with nothing scheduled for it is reported rolled back. */
  predicate RolledBack(t: SlotTable, before: seq<Image>, after: seq<Image>) {
    && |after| == |before|
    && forall k :: 0 <= k < |before| ==>
         var gone := Astray(t, before[k]) && !ImageScheduled(t, before[k].target.image);
         after[k].report == before[k].report.(rolledBack := before[k].report.rolledBack || gone)
  }

  /** The device will yet boot something else: an image scheduled that has not booted, or one on trial. */
  predicate Unsettled(t: SlotTable, targets: seq<Image>, mode: McubootMode) {
    || (exists k :: 0 <= k < |targets| && Astray(t, targets[k]) && ImageScheduled(t, targets[k].target.image))
    || (exists k :: 0 <= k < |targets| && Owed(t, targets[k], mode))
  }

  /**
    The check after a boot. An image of the client's for which nothing runs, or something else does, ends the
    update; in the second case each image is reported rolled back unless something is still scheduled for it.
    Otherwise the device's own images are looked at.
   */
  predicate BootRuling(plan: Plan, t: SlotTable, c: Context, o: Outcome) {
    if exists k :: 0 <= k < |c.targets| && c.targets[k].target.commit == Client
                   && !RunsSomething(t, c.targets[k].target.image) then
      Fails(o, UpdateFailed, c.swapScheduled) && o.ctx.targets == c.targets
    else if exists k :: 0 <= k < |c.targets| && Astray(t, c.targets[k]) then
      Fails(o, UpdateFailed, Unsettled(t, c.targets, c.mode.mode)) && RolledBack(t, c.targets, o.ctx.targets)
    else ApplyRuling(plan, t, TrialsOf(t, c), o)
  }

  lemma JudgedTold(t: SlotTable, targets: seq<Image>, withoutSetState: bool, mode: McubootMode)
    requires withoutSetState <==> mode == DirectXip
    ensures forall k :: 0 <= k < |targets| ==>
              && (NoActiveSlot(t, targets[k]) <==>
                  targets[k].target.commit == Client && !RunsSomething(t, targets[k].target.image))
              && (NotRun(t, targets[k]) <==> Astray(t, targets[k]))
              && (NotBooted(t, targets[k]) <==>
                  Astray(t, targets[k]) && ImageScheduled(t, targets[k].target.image))
              && (Reverted(t, targets[k]) <==>
                  Astray(t, targets[k]) && !ImageScheduled(t, targets[k].target.image))
              && (OwedConfirm(t, targets[k], withoutSetState) <==> Owed(t, targets[k], mode))
  {
    hide NoActiveSlot, NotRun, NotBooted, Reverted, RunningOnTrial, Astray, RunsSomething, ImageScheduled, RunsFile,
         KeepsFile;
    forall k | 0 <= k < |targets|
      ensures NoActiveSlot(t, targets[k]) <==>
              targets[k].target.commit == Client && !RunsSomething(t, targets[k].target.image)
      ensures NotRun(t, targets[k]) <==> Astray(t, targets[k])
      ensures NotBooted(t, targets[k]) <==> Astray(t, targets[k]) && ImageScheduled(t, targets[k].target.image)
      ensures Reverted(t, targets[k]) <==> Astray(t, targets[k]) && !ImageScheduled(t, targets[k].target.image)
      ensures OwedConfirm(t, targets[k], withoutSetState) <==> Owed(t, targets[k], mode)
    {
      Told(t, targets[k]);
    }
  }

  lemma FirstTrial(targets: seq<Image>)
    ensures NextInTrial(targets, 0) < |targets| <==> exists k :: 0 <= k < |targets| && targets[k].inTrial
  {
  }

  lemma JudgedShows(c: Context)
    ensures RolledBack(Table(c), c.targets, Judged(c).targets)
    ensures Judged(c).swapScheduled <==> Unsettled(Table(c), c.targets, c.mode.mode)
  {
    hide NotRun, NotBooted, Reverted, OwedConfirm, Astray, ImageScheduled, Owed, Table, NextInTrial, RunsSomething;
    var t, d := Table(c), Judged(c);
    JudgedTold(t, c.targets, WithoutSetState(c), c.mode.mode);
    FirstTrial(d.targets);
    assert forall k :: 0 <= k < |c.targets| ==> (d.targets[k].inTrial <==> Owed(t, c.targets[k], c.mode.mode));
  }

  lemma BootFails(plan: Plan, c: Context)
    requires var t := Table(c);
             exists k :: 0 <= k < |c.targets| && (NoActiveSlot(t, c.targets[k]) || NotRun(t, c.targets[k]))
    ensures BootRuling(plan, Table(c), c, InspectBoot(plan, c))
  {
    hide NoActiveSlot, NotRun, NotBooted, Reverted, OwedConfirm, Astray, RunsSomething, ImageScheduled, Owed, Table,
         AwaitDevice, ApplyRuling, Judged, RolledBack, Unsettled;
    JudgedTold(Table(c), c.targets, WithoutSetState(c), c.mode.mode);
    JudgedShows(c);
  }

  lemma BootRuled(plan: Plan, c: Context)
    ensures BootRuling(plan, Table(c), c, InspectBoot(plan, c))
  {
    hide NoActiveSlot, NotRun, Astray, RunsSomething, Table, AwaitDevice, ApplyRuling, Judged, TrialsOf, Owed,
         ImageScheduled, NotBooted, Reverted, OwedConfirm;
    var t := Table(c);
    if exists k :: 0 <= k < |c.targets| && (NoActiveSlot(t, c.targets[k]) || NotRun(t, c.targets[k])) {
      BootFails(plan, c);
    } else {
      JudgedTold(t, c.targets, WithoutSetState(c), c.mode.mode);
      JudgedIsTrials(c);
      ApplyRuled(plan, Judged(c));
      SameDevice(t, c);
    }
  }

  lemma SameDevice(t: SlotTable, c: Context)
    ensures Table(TrialsOf(t, c)) == Table(c)
  {
    hide Owed;
  }

  lemma JudgedIsTrials(c: Context)
    requires !exists k :: 0 <= k < |c.targets| && NotRun(Table(c), c.targets[k])
    ensures Judged(c) == TrialsOf(Table(c), c)
  {
    hide NotRun, OwedConfirm, Owed, Table, NextInTrial, Astray, RunsSomething, ImageScheduled, AnythingPending;
    var t, d := Table(c), Judged(c);
    JudgedTold(t, c.targets, WithoutSetState(c), c.mode.mode);
    FirstTrial(d.targets);
    assert forall k :: 0 <= k < |c.targets| ==> !NotRun(t, c.targets[k]);
    assert forall k :: 0 <= k < |c.targets| ==> d.targets[k] == TrialsOf(t, c).targets[k];
    assert forall k :: 0 <= k < |c.targets| ==> (d.targets[k].inTrial <==> Owed(t, c.targets[k], c.mode.mode));
  }

  // --- Whole runs ----------------------------------------------------------------------------------

  /** The last step of a run, as an outcome. */
  function Latest(plan: Plan, r: Run): Outcome
    requires r.Then?
  {
    Outcome(At(plan, r).ctx, At(plan, r).state, LastStep(plan, r).effect)
  }

  lemma LatestIs(plan: Plan, r: Run)
    requires r.Then? && Disciplined(plan, r) && !IsTerminal(At(plan, r.before).state)
    ensures var b := At(plan, r.before);
            && Decidable(b.state, r.event, b.ctx)
            && Latest(plan, r) == Decide(plan, b.state, r.event, r.now, b.timers, b.ctx)
  {
    hide At, LastStep, Decide, Disciplined, Decidable;
    Decided(plan, r);
  }

  /** The table read after the confirms: every image of the client's must be kept, then the device's are looked at. */
  predicate ConfirmRuling(t: SlotTable, c: Context, o: Outcome) {
    if forall k :: 0 <= k < |c.targets| && c.targets[k].target.commit == Client ==> KeepsFile(t, c.targets[k].target)
    then CommitRuling(t, c, o)
    else Fails(o, UpdateFailed, true)
  }

  lemma ConfirmRuled(c: Context)
    ensures ConfirmRuling(Table(c), c, ConfirmVerified(c))
  {
    hide Keeps, KeepsFile, AwaitCommit, CommitRuling, Table;
    var t := Table(c);
    forall k | 0 <= k < |c.targets|
      ensures Keeps(t, c.targets[k].target) <==> KeepsFile(t, c.targets[k].target)
    {
      RowsRead(t, c.targets[k].target);
    }
    CommitRuled(c);
  }

  /** The table read after an upload: the file must be in a slot, whose number is reported, and is marked next. */
  predicate UploadRuling(t: SlotTable, c: Context, o: Outcome)
    requires c.current < |c.targets|
  {
    var target := c.targets[c.current].target;
    if !HoldsFile(t, target) then Fails(o, ImageMismatch, c.swapScheduled)
    else c.mode.mode != DirectXip ==>
      && o.next == MarkingForTest && o.effect == MarkForTest
      && o.ctx.current == c.current && |o.ctx.targets| == |c.targets|
      && exists k :: 0 <= k < |t| && FileRow(t, target, k)
                     && o.ctx.targets[c.current].report == c.targets[c.current].report.(uploadSlot := Some(t[k].slot))
  }

  lemma UploadRuled(plan: Plan, c: Context)
    requires c.current < |c.targets|
    ensures UploadRuling(Table(c), c, UploadVerified(plan, c))
  {
    hide NextTarget, Holder;
    var t, target := Table(c), c.targets[c.current].target;
    RowsRead(t, target);
    FileRowFound(t, target);
    RowsBound(t, target);
  }

  /** Every table read after the reset, after an upload or while waiting is ruled on as its rows say. */
  lemma TableRules(plan: Plan, r: Run, t: SlotTable)
    requires Disciplined(plan, r) && r.Then? && r.event == StateRead(Some(t))
    ensures var b, o := At(plan, r.before), Latest(plan, r);
            var c := b.ctx.(device := Some(t));
            match b.state
            case VerifyingBooted => BootRuling(plan, t, c, o)
            case AwaitingDeviceApply => ApplyRuling(plan, t, c, o)
            case AwaitingDeviceCommit => CommitRuling(t, c, o)
            case VerifyingConfirmed => ConfirmRuling(t, c, o)
            case VerifyingUpload => c.current < |c.targets| && UploadRuling(t, c, o)
            case _ => true
  {
    hide At, LastStep, Disciplined, InspectBoot, AwaitDevice, AwaitCommit, ConfirmVerified, UploadVerified, BootRuling,
         ApplyRuling, CommitRuling, ConfirmRuling, UploadRuling, Latest;
    var b := At(plan, r.before);
    var c := b.ctx.(device := Some(t));
    if !IsTerminal(b.state) {
      LatestIs(plan, r);
      BootRuled(plan, c);
      ApplyRuled(plan, c);
      CommitRuled(c);
      ConfirmRuled(c);
      if c.current < |c.targets| {
        UploadRuled(plan, c);
      }
    }
  }
}
