/**
  The decisions of an update that goes well: one client and one device image, uploaded, marked, booted,
  confirmed and committed, each answered at once.
 */
module UpdatePath {
  import opened UpdateTypes
  import opened UpdateMachine
  import opened UpdateScenarios

  /** A client image first and a device image second, told apart, with one file each. */
  predicate ClientThenDevice(targets: seq<Target>) {
    && |targets| == 2 && targets[0].commit.Client? && targets[1].commit.Device?
    && targets[0].image != targets[1].image
    && (forall k :: 0 <= k < 2 ==> targets[k].hash != [] && targets[k].builds.None?)
  }

  /** A plan that confirms by itself and refuses nothing on account of versions. */
  predicate Straight(plan: Plan) {
    plan.mode.ConfirmImmediately? && !plan.checkDowngrade
  }

  /** Staging image `current` on a device that swaps; something is scheduled once the first is marked. */
  predicate Staging(c: Context, targets: seq<Target>, current: nat, scheduled: bool) {
    && |c.targets| == |targets| == 2 && (forall k :: 0 <= k < 2 ==>
                                         c.targets[k].target == targets[k] && !c.targets[k].inTrial)
    && c.current == current && c.swapScheduled == scheduled && c.mode == OPENING_MODE && !c.spent.confirmApproved
  }

  predicate Absent(t: SlotTable, target: Target) {
    Holder(t, target) == |t|
  }

  lemma AbsentNotRun(t: SlotTable, target: Target)
    requires Absent(t, target)
    ensures !Runs(t, target)
  {
  }

  /** The current image's file is nowhere: upload it. */
  lemma PlansUpload(plan: Plan, c: Context, targets: seq<Target>, current: nat, scheduled: bool)
    requires ClientThenDevice(targets) && Straight(plan) && current < 2 && Staging(c, targets, current, scheduled)
    requires Absent(Table(c), targets[current]) && !c.uploadInProgress
    ensures var o := PlanFromState(plan, c);
            && o.next.Uploading? && o.effect.StartUpload? && Staging(o.ctx, targets, current, scheduled)
            && o.ctx.spent.preconditionsChecked
  {
    AbsentNotRun(Table(c), targets[current]);
    hide Runs, Holder, Staged, PlanMark;
    NotYetReset(c, targets, current, scheduled);
    hide AfterReset;
  }

  lemma NotYetReset(c: Context, targets: seq<Target>, current: nat, scheduled: bool)
    requires ClientThenDevice(targets) && current < 2 && Staging(c, targets, current, scheduled)
    requires !Runs(Table(c), targets[current])
    ensures !AfterReset(c)
  {
    hide Runs;
  }

  lemma UploadDone(plan: Plan, c: Context, targets: seq<Target>, current: nat, scheduled: bool)
    requires Straight(plan) && current < 2 && Staging(c, targets, current, scheduled)
    ensures var o := AfterUpload(plan, c, 0, false);
            && o.next.VerifyingUpload? && o.effect.ReadState? && Staging(o.ctx, targets, current, scheduled)
            && !o.ctx.uploadInProgress && o.ctx.spent == c.spent
  {
  }

  /** Its file is there now: mark it. */
  lemma UploadSeen(plan: Plan, c: Context, targets: seq<Target>, current: nat, scheduled: bool)
    requires Straight(plan) && current < 2 && Staging(c, targets, current, scheduled)
    requires !Absent(Table(c), targets[current]) && !c.uploadInProgress
    ensures var o := UploadVerified(plan, c);
            && o.next.MarkingForTest? && o.effect.MarkForTest? && Staging(o.ctx, targets, current, scheduled)
            && !o.ctx.uploadInProgress && o.ctx.spent == c.spent && o.ctx.device == c.device
  {
    hide Holder;
  }

  /** Once marked, the next image is planned, or the device reset. */
  lemma MarkDone(plan: Plan, c: Context, targets: seq<Target>, current: nat)
    requires Straight(plan) && current < 2 && Staging(c, targets, current, true)
    requires !c.uploadInProgress && c.spent.preconditionsChecked
    ensures var o := NextTarget(plan, c);
            && Staging(o.ctx, targets, current + 1, true) && !o.ctx.uploadInProgress && o.ctx.device == c.device
            && o.ctx.spent.preconditionsChecked
            && (if current == 0 then o.next.Planning? && o.effect.Continue? else o.next.Resetting? && o.effect.Reset?)
  {
  }

  /** Both run their files, unconfirmed: the client image is to be confirmed. */
  lemma BootSeen(plan: Plan, c: Context, targets: seq<Target>)
    requires ClientThenDevice(targets) && Straight(plan) && Staging(c, targets, 2, true)
    requires var t := Table(c);
             forall k :: 0 <= k < 2 ==> Runs(t, targets[k]) && !Keeps(t, targets[k])
    ensures var o := InspectBoot(plan, c);
            && o.next.Confirming? && o.effect.Confirm? && o.ctx.current == 0
            && |o.ctx.targets| == 2 && (forall k :: 0 <= k < 2 ==> o.ctx.targets[k].target == targets[k])
            && !o.ctx.targets[1].inTrial
  {
    var t := Table(c);
    var d := Judged(c);
    JudgedOne(c, targets);
    hide Judged, Runs, Keeps, Holder, AnythingPending;
    TrialAwaited(plan, d, targets);
  }

  lemma JudgedOne(c: Context, targets: seq<Target>)
    requires ClientThenDevice(targets) && Staging(c, targets, 2, true)
    requires forall k :: 0 <= k < 2 ==> Runs(Table(c), targets[k]) && !Keeps(Table(c), targets[k])
    ensures var d := Judged(c);
            && |d.targets| == 2 && (forall k :: 0 <= k < 2 ==> d.targets[k].target == targets[k])
            && d.targets[0].inTrial && !d.targets[1].inTrial && d.swapScheduled && d.device == c.device
            && forall k :: 0 <= k < 2 ==> !NoActiveSlot(Table(c), c.targets[k]) && !NotRun(Table(c), c.targets[k])
  {
    hide Holder, AnythingPending;
  }

  lemma TrialAwaited(plan: Plan, d: Context, targets: seq<Target>)
    requires ClientThenDevice(targets) && Straight(plan) && d.swapScheduled
    requires |d.targets| == 2 && (forall k :: 0 <= k < 2 ==> d.targets[k].target == targets[k])
    requires d.targets[0].inTrial && !d.targets[1].inTrial && Runs(Table(d), targets[1]) && !Keeps(Table(d), targets[1])
    ensures var o := AwaitDevice(plan, d);
            && o.next.Confirming? && o.effect.Confirm? && o.ctx.current == 0
            && |o.ctx.targets| == 2 && (forall k :: 0 <= k < 2 ==> o.ctx.targets[k].target == targets[k])
            && !o.ctx.targets[1].inTrial
  {
    hide Runs, Keeps, Holder, AwaitCommit;
  }

  lemma ConfirmDone(c: Context, targets: seq<Target>)
    requires |c.targets| == 2 && c.current == 0 && !c.targets[1].inTrial
    requires |targets| == 2 && forall k :: 0 <= k < 2 ==> c.targets[k].target == targets[k]
    ensures var o := AfterConfirm(c);
            && o.next.VerifyingConfirmed? && o.effect.ReadState?
            && |o.ctx.targets| == 2 && (forall k :: 0 <= k < 2 ==> o.ctx.targets[k].target == targets[k])
  {
  }

  /** Both are kept: done. */
  lemma AllDone(c: Context, targets: seq<Target>)
    requires |c.targets| == 2 && |targets| == 2 && forall k :: 0 <= k < 2 ==> c.targets[k].target == targets[k]
    requires forall k :: 0 <= k < 2 ==> Keeps(Table(c), targets[k])
    ensures ConfirmVerified(c).next.Completed? && ConfirmVerified(c).effect.Finish?
  {
    hide Runs, Holder;
  }
}
