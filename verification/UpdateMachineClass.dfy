/**
  The update machine as an object: its fields change in place and its searches and planning run as
  loops. Every method is proved to do what the function of the same decision says.
 */
module UpdateMachineClass {
  import opened Common
  import opened UpdateTypes
  import opened UpdateMachine
  import opened UpdateInvariant
  import opened UpdateSteps
  import opened UpdateRuns
  import opened UpdateTheorems

  function WithImage(c: Context, i: nat, image: Image): (d: Context)
    requires i < |c.targets|
    ensures Table(d) == Table(c)
  {
    c.(targets := c.targets[i := image])
  }

  class Machine {
    const plan: Plan
    var state: UpdateState
    var ctx: Context
    var timers: Timers
    var summary: Summary
    var ending: Ending

    /** The machine as a value. */
    ghost function Value(): MachineState
      reads this
    {
      MachineState(state, ctx, timers, summary, ending)
    }

    constructor (targets: seq<Target>, plan: Plan)
      ensures Value() == Initial(targets) && this.plan == plan
    {
      this.plan := plan;
      var images: seq<Image> := [];
      for i := 0 to |targets|
        invariant |images| == i
        invariant forall k :: 0 <= k < i ==> images[k] == InitialImage(targets[k])
      {
        images := images + [InitialImage(targets[i])];
      }
      state := Idle;
      ctx := Context(images, 0, None, 0, false, false, false,
                     Allowances(false, false, false, false, false), ModeRecord(Unknown, Assumed),
                         Verdict(None, false, None));
      timers := Timers(None, None, None, None);
      summary := Summary(0, false, false, None);
      ending := Ending(Idle, None, None);
      new;
      assert ctx.targets == Initial(targets).ctx.targets;
    }

    method FindActive(image: nat) returns (index: nat)
      ensures index == Active(Table(ctx), image)
    {
      var t := Table(ctx);
      index := 0;
      while index < |t| && !(t[index].image == image && t[index].active)
        invariant index <= |t|
        invariant ActiveFrom(t, image, index) == ActiveFrom(t, image, 0)
      {
        index := index + 1;
      }
    }

    method FindHolder(target: Target) returns (index: nat)
      ensures index == Holder(Table(ctx), target)
    {
      var t := Table(ctx);
      index := 0;
      while index < |t| && !(t[index].image == target.image && Holds(t[index], target))
        invariant index <= |t|
        invariant HolderFrom(t, target, index) == HolderFrom(t, target, 0)
      {
        index := index + 1;
      }
    }

    method AnyPending(image: nat) returns (found: bool)
      ensures found == AnythingPending(Table(ctx), image)
    {
      var t := Table(ctx);
      for i := 0 to |t|
        invariant forall k :: 0 <= k < i ==> !(t[k].image == image && t[k].pending)
      {
        if t[i].image == image && t[i].pending {
          return true;
        }
      }
      return false;
    }

    method FindInTrial(from: nat) returns (index: nat)
      requires from <= |ctx.targets|
      ensures index == NextInTrial(ctx.targets, from)
    {
      index := from;
      while index < |ctx.targets| && !ctx.targets[index].inTrial
        invariant from <= index <= |ctx.targets|
        invariant NextInTrial(ctx.targets, index) == NextInTrial(ctx.targets, from)
      {
        index := index + 1;
      }
    }

    /** Looks a device image up, first among the running slots and then among the pending ones. */
    method InspectApply(target: Target) returns (apply: Apply)
      ensures apply == ApplyOf(Table(ctx), target)
    {
      var t := Table(ctx);
      var active := FindActive(target.image);
      if active < |t| && Holds(t[active], target) {
        return if t[active].confirmed then Committed else OnTrial;
      }
      var holder := FindHolder(target);
      return if holder < |t| && t[holder].pending then Applying else ApplyFailed;
    }

    method GiveUp(code: ErrorCode) returns (next: UpdateState, effect: Effect)
      modifies this`ctx
      ensures Outcome(ctx, next, effect) == FailWith(old(ctx), code)
    {
      ctx := ctx.(verdict := ctx.verdict.(revertPending := ctx.swapScheduled, cause := Some(Error(code, None))));
      return Failed, Finish;
    }

    /** Writes down what the table shows of image `index`, if it is a `Device` image. */
    method ObserveAt(index: nat) returns (apply: Option<Apply>)
      requires index < |ctx.targets|
      modifies this`ctx
      ensures var t := Table(old(ctx));
              var image := old(ctx).targets[index];
              && ctx == old(ctx).(targets := old(ctx).targets[index := Observed(t, image)])
              && apply == (if image.target.commit.Device? then Some(ApplyOf(t, image.target)) else None)
              && Table(ctx) == t
    {
      hide ApplyOf;
      var image := ctx.targets[index];
      if image.target.commit.Client? {
        assert ctx.targets == ctx.targets[index := image];
        return None;
      }
      var found := InspectApply(image.target);
      if found.Committed? {
        ctx := ctx.(targets := ctx.targets[index := image.(report := image.report.(applied := true,
            committed := true))]);
      } else if found.OnTrial? {
        ctx := ctx.(targets := ctx.targets[index := image.(report := image.report.(applied := true))]);
      } else {
        assert ctx.targets == ctx.targets[index := image];
      }
      return Some(found);
    }

    method GiveUpOn(index: nat) returns (next: UpdateState, effect: Effect)
      requires index < |ctx.targets|
      modifies this`ctx
      ensures Outcome(ctx, next, effect) ==
              FailWith(WithReport(old(ctx), index, old(ctx).targets[index].report.(applied := false)), UpdateFailed)
    {
      var image := ctx.targets[index];
      ctx := ctx.(targets := ctx.targets[index := image.(report := image.report.(applied := false))]);
      next, effect := GiveUp(UpdateFailed);
    }

    method AwaitCommitStep() returns (next: UpdateState, effect: Effect)
      modifies this`ctx
      ensures Outcome(ctx, next, effect) == AwaitCommit(old(ctx))
    {
      hide ApplyOf, Table, ObservedBelow, FailWith, WithReport;
      ObservedNone(Table(ctx), ctx.targets);
      ghost var before := ctx;
      ghost var t := Table(ctx);
      var committing := false;
      var index := 0;
      while index < |ctx.targets|
        invariant index <= |before.targets| && ctx == before.(targets := ctx.targets)
        invariant ctx.targets == ObservedBelow(t, before.targets, index) && Table(ctx) == t
        invariant forall k :: 0 <= k < index ==> !Lost(t, before.targets[k])
        invariant committing <==> exists k :: 0 <= k < index && Reports(t, before.targets[k], OnTrial)
      {
        ObservedNext(t, before.targets, index);
        var apply := ObserveAt(index);
        if apply == Some(OnTrial) {
          committing := true;
        } else if apply.Some? && !apply.value.Committed? {
          FirstLostIs(t, before.targets, 0, index);
          next, effect := GiveUpOn(index);
          return;
        }
        index := index + 1;
      }
      FirstLostIs(t, before.targets, 0, index);
      if committing {
        return AwaitingDeviceCommit, AwaitApply;
      }
      return Completed, Finish;
    }

    method AwaitDeviceStep() returns (next: UpdateState, effect: Effect)
      modifies this`ctx
      ensures Outcome(ctx, next, effect) == AwaitDevice(plan, old(ctx))
    {
      hide ApplyOf, AwaitCommit, Table, ObservedBelow, FailWith;
      ObservedNone(Table(ctx), ctx.targets);
      ghost var before := ctx;
      ghost var t := Table(ctx);
      var applying := false;
      var index := 0;
      while index < |ctx.targets|
        invariant index <= |before.targets| && ctx == before.(targets := ctx.targets)
        invariant ctx.targets == ObservedBelow(t, before.targets, index) && Table(ctx) == t
        invariant forall k :: 0 <= k < index ==> !Reports(t, before.targets[k], ApplyFailed)
        invariant applying <==> exists k :: 0 <= k < index && Reports(t, before.targets[k], Applying)
      {
        ObservedNext(t, before.targets, index);
        var apply := ObserveAt(index);
        if apply == Some(Applying) {
          applying := true;
        } else if apply == Some(ApplyFailed) {
          FirstFailedIs(t, before.targets, 0, index);
          next, effect := GiveUp(UpdateFailed);
          return;
        }
        index := index + 1;
      }
      FirstFailedIs(t, before.targets, 0, index);
      if applying {
        return AwaitingDeviceApply, AwaitApply;
      }
      if !ctx.swapScheduled {
        next, effect := AwaitCommitStep();
        return;
      }
      var first := FindInTrial(0);
      ctx := ctx.(current := first);
      if plan.mode.ConfirmImmediately? || ctx.spent.confirmApproved {
        return Confirming, Confirm;
      }
      return AwaitingConfirmation, RequestConfirmation;
    }

    /** Whether the table lacks a running slot for some client image. */
    method AnyWithoutActive() returns (found: bool)
      ensures found <==> exists k :: 0 <= k < |ctx.targets| && NoActiveSlot(Table(ctx), ctx.targets[k])
    {
      for i := 0 to |ctx.targets|
        invariant forall k :: 0 <= k < i ==> !NoActiveSlot(Table(ctx), ctx.targets[k])
      {
        if ctx.targets[i].target.commit.Client? {
          var active := FindActive(ctx.targets[i].target.image);
          if active == |Table(ctx)| {
            assert NoActiveSlot(Table(ctx), ctx.targets[i]);
            return true;
          }
        }
      }
      return false;
    }

    /** Looks one image up in the table: the image as judged, and whether it was reverted or not booted. */
    method JudgeImage(image: Image) returns (judged: Image, reverted: bool, notBooted: bool)
      ensures judged == JudgedImage(Table(ctx), image, WithoutSetState(ctx))
      ensures reverted == Reverted(Table(ctx), image) && notBooted == NotBooted(Table(ctx), image)
    {
      var t := Table(ctx);
      judged := image.(inTrial := false);
      reverted, notBooted := false, false;
      if image.target.commit.Client? {
        var active := FindActive(image.target.image);
        if active < |t| && Holds(t[active], image.target) {
          judged := judged.(inTrial := !WithoutSetState(ctx) && !t[active].confirmed);
        } else {
          notBooted := AnyPending(image.target.image);
          if !notBooted {
            judged := judged.(report := judged.report.(rolledBack := true));
            reverted := true;
          }
        }
      }
    }

    /** Judges every image in turn. */
    method JudgeAll() returns (reverted: bool, notBooted: bool)
      modifies this`ctx
      ensures ctx == old(ctx).(targets := Judged(old(ctx)).targets)
      ensures reverted <==> exists k :: 0 <= k < |old(ctx).targets| && Reverted(Table(old(ctx)), old(ctx).targets[k])
      ensures notBooted <==> exists k :: 0 <= k < |old(ctx).targets| && NotBooted(Table(old(ctx)), old(ctx).targets[k])
    {
      hide NotBooted, Reverted, JudgedImage, Table;
      ghost var before := ctx;
      ghost var t := Table(ctx);
      reverted, notBooted := false, false;
      var index := 0;
      while index < |ctx.targets|
        invariant index <= |before.targets| == |ctx.targets| && ctx == before.(targets := ctx.targets)
        invariant Table(ctx) == t
        invariant forall k :: 0 <= k < |ctx.targets| ==>
          ctx.targets[k] == if k < index then JudgedImage(t, before.targets[k], WithoutSetState(before))
              else before.targets[k]
        invariant reverted <==> exists k :: 0 <= k < index && Reverted(t, before.targets[k])
        invariant notBooted <==> exists k :: 0 <= k < index && NotBooted(t, before.targets[k])
      {
        var judged, back, still := JudgeImage(ctx.targets[index]);
        ctx := WithImage(ctx, index, judged);
        reverted, notBooted := reverted || back, notBooted || still;
        index := index + 1;
      }
      assert ctx.targets == Judged(before).targets;
    }

    method InspectBootStep() returns (next: UpdateState, effect: Effect)
      modifies this`ctx
      ensures Outcome(ctx, next, effect) == InspectBoot(plan, old(ctx))
    {
      hide AwaitDevice, NoActiveSlot, NotBooted, Reverted, JudgedImage, Table;
      ghost var before := ctx;
      var lacking := AnyWithoutActive();
      if lacking {
        next, effect := GiveUp(UpdateFailed);
        return;
      }
      var reverted, notBooted := JudgeAll();
      NotRunSplits(Table(before), before.targets);
      var first := FindInTrial(0);
      ctx := ctx.(swapScheduled := notBooted || first < |ctx.targets|);
      assert ctx == Judged(before);
      if reverted || notBooted {
        next, effect := GiveUp(UpdateFailed);
        return;
      }
      next, effect := AwaitDeviceStep();
    }

    /** Fixes which of two builds the current target is about, or fails. */
    method ChooseBuildStep() returns (failed: Option<(UpdateState, Effect)>)
      requires ctx.current < |ctx.targets|
      modifies this`ctx
      ensures match ChooseBuild(old(ctx))
              case Ok(d) => failed.None? && ctx == d
              case Err(o) => failed == Some((o.next, o.effect)) && ctx == o.ctx
    {
      var image := ctx.targets[ctx.current];
      if image.target.builds.None? || image.chosenKnown {
        return None;
      }
      var builds := image.target.builds.value;
      if !ctx.mode.mode.DirectXip? && !ctx.mode.mode.DirectXipWithRevert? {
        var next, effect := GiveUp(InvalidArgument);
        return Some((next, effect));
      }
      var t := Table(ctx);
      var base := image.target.image * 2;
      var running := FindActive(image.target.image);
      var chosen: nat := if running < |t| && t[running].slot == base + 1 then 0 else 1;
      var present := false;
      var index := 0;
      ghost var free := chosen;
      while index < 2
        invariant index <= 2 && chosen <= 1
        invariant index == 0 ==> !present && chosen == free
        invariant index == 1 ==>
                  present == BuildPresent(t, image.target.image, 0, builds.0.hash)
                      && chosen == (if present then 0 else free)
        invariant index == 2 ==> chosen == ChosenBuild(t, image.target.image, builds)
      {
        var slot := ListedFrom(t, image.target.image, base + index, 0);
        var hash := if index == 0 then builds.0.hash else builds.1.hash;
        if slot < |t| && t[slot].hash == Some(hash) && (!present || slot == running) {
          chosen := index;
          present := true;
        }
        index := index + 1;
      }
      var build := if chosen == 0 then builds.0 else builds.1;
      ctx := ctx.(targets := ctx.targets[ctx.current := image.(
                    chosen := chosen, chosenKnown := true,
                    target := image.target.(hash := build.hash, version := build.version),
                    report := image.report.(targetHash := build.hash))]);
      return None;
    }

    method GiveUpWith(error: Error) returns (next: UpdateState, effect: Effect)
      modifies this`ctx
      ensures Outcome(ctx, next, effect) == Fail(old(ctx), error)
    {
      ctx := ctx.(verdict := ctx.verdict.(revertPending := ctx.swapScheduled, cause := Some(error)));
      return Failed, Finish;
    }

    /** The refusal checks, once: whether they let the update go on. */
    method CheckStep() returns (refused: Option<(UpdateState, Effect)>)
      modifies this`ctx
      ensures match CheckPreconditions(plan, old(ctx))
              case Ok(d) => refused.None? && ctx == d
              case Err(o) => refused == Some((o.next, o.effect)) && ctx == o.ctx
    {
      hide RefusalFor;
      if ctx.spent.preconditionsChecked {
        return None;
      }
      var refusal := RefusalFor(plan, ctx);
      ctx := ctx.(spent := ctx.spent.(preconditionsChecked := true));
      if refusal.None? {
        return None;
      }
      ctx := ctx.(verdict := ctx.verdict.(refusal := refusal));
      var next, effect := GiveUp(UpdateRefused);
      return Some((next, effect));
    }

    method StagedStep() returns (next: UpdateState, effect: Effect)
      modifies this`ctx
      ensures Outcome(ctx, next, effect) == Staged(plan, old(ctx))
    {
      hide InspectBoot, CheckPreconditions;
      if plan.mode.UploadOnly? {
        return Completed, Finish;
      }
      if ctx.swapScheduled {
        var refused := CheckStep();
        if refused.Some? {
          return refused.value.0, refused.value.1;
        }
        return Resetting, Reset;
      }
      next, effect := InspectBootStep();
    }

    method NextTargetStep() returns (next: UpdateState, effect: Effect)
      modifies this`ctx
      ensures Outcome(ctx, next, effect) == NextTarget(plan, old(ctx))
    {
      hide Staged;
      ctx := ctx.(current := ctx.current + 1, spent := ctx.spent.(markRetried := false));
      if ctx.current < |ctx.targets| {
        return Planning, Continue;
      }
      next, effect := StagedStep();
    }

    method MarkOrSkipStep() returns (next: UpdateState, effect: Effect)
      modifies this`ctx
      ensures Outcome(ctx, next, effect) == MarkOrSkip(plan, old(ctx))
    {
      hide NextTarget;
      if WithoutSetState(ctx) {
        ctx := ctx.(swapScheduled := true);
        next, effect := NextTargetStep();
        return;
      }
      return MarkingForTest, MarkForTest;
    }

    /** The current image's file is in a slot, unmarked. */
    method MarkStep(slot: nat) returns (next: UpdateState, effect: Effect)
      requires ctx.current < |ctx.targets|
      modifies this`ctx
      ensures Outcome(ctx, next, effect) == PlanMark(plan, old(ctx), slot)
    {
      hide MarkOrSkip, RefusalFor;
      var at := ctx.current;
      ctx := WithReport(ctx, at, ctx.targets[at].report.(uploadSkipped := true));
      var refused := CheckStep();
      if refused.Some? {
        return refused.value.0, refused.value.1;
      }
      ctx := WithReport(ctx, at, ctx.targets[at].report.(uploadSlot := Some(slot)));
      ghost var was := old(ctx);
      assert ctx.targets == WithReport(was, at, was.targets[at].report.(uploadSkipped := true,
          uploadSlot := Some(slot))).targets;
      next, effect := MarkOrSkipStep();
    }

    method UploadStep() returns (next: UpdateState, effect: Effect)
      modifies this`ctx
      ensures Outcome(ctx, next, effect) == PlanUpload(plan, old(ctx))
    {
      hide CheckPreconditions;
      var refused := CheckStep();
      if refused.Some? {
        return refused.value.0, refused.value.1;
      }
      ctx := ctx.(uploadInProgress := true);
      return Uploading, StartUpload;
    }

    /** The planner's loop: works through the images until one needs something, or all are staged. */
    method PlanLoop() returns (next: UpdateState, effect: Effect)
      modifies this`ctx
      ensures Outcome(ctx, next, effect) == PlanFrom(plan, old(ctx))
    {
      hide Staged, PlanMark, PlanUpload, ChooseBuild;
      ghost var before := ctx;
      while ctx.current < |ctx.targets|
        invariant PlanFrom(plan, ctx) == PlanFrom(plan, before)
        decreases |ctx.targets| - ctx.current
      {
        ghost var here := ctx;
        ChooseBuildFramed(ctx);
        var failed := ChooseBuildStep();
        if failed.Some? {
          return failed.value.0, failed.value.1;
        }
        var t := Table(ctx);
        var image := ctx.targets[ctx.current];
        var holder := FindHolder(image.target);
        var active := FindActive(image.target.image);
        if holder < |t| && holder == active {
          var entry := image.report.(uploadSkipped := true);
          assert NeedOf(plan, t, image.target, image.report) == Skip(entry, false);
          ctx := SkipCurrent(ctx, Skip(entry, false));
        } else if holder < |t| && t[holder].pending {
          var entry := image.report.(uploadSkipped := true, uploadSlot := Some(t[holder].slot));
          assert NeedOf(plan, t, image.target, image.report) == Skip(entry, !plan.mode.UploadOnly?);
          ctx := SkipCurrent(ctx, Skip(entry, !plan.mode.UploadOnly?));
        } else if holder < |t| && plan.skipIfPresent {
          if plan.mode.UploadOnly? {
            var entry := image.report.(uploadSkipped := true);
            assert NeedOf(plan, t, image.target, image.report) == Skip(entry, false);
            ctx := SkipCurrent(ctx, Skip(entry, false));
          } else {
            assert NeedOf(plan, t, image.target, image.report) == Mark(t[holder].slot);
            next, effect := MarkStep(t[holder].slot);
            return;
          }
        } else {
          assert NeedOf(plan, t, image.target, image.report) == Upload;
          next, effect := UploadStep();
          return;
        }
      }
      next, effect := StagedStep();
    }

    method PlanStep() returns (next: UpdateState, effect: Effect)
      modifies this`ctx
      ensures Outcome(ctx, next, effect) == PlanFromState(plan, old(ctx))
    {
      hide PlanFrom, InspectBoot;
      if AfterReset(ctx) && !plan.mode.UploadOnly? {
        ghost var before := ctx;
        var index := 0;
        while index < |ctx.targets|
          invariant index <= |before.targets| == |ctx.targets| && ctx == before.(targets := ctx.targets)
          invariant forall k :: 0 <= k < |ctx.targets| ==>
            ctx.targets[k] == if k < index then
                before.targets[k].(report := before.targets[k].report.(uploadSkipped := true)) else before.targets[k]
        {
          var image := ctx.targets[index];
          ctx := ctx.(targets := ctx.targets[index := image.(report := image.report.(uploadSkipped := true))]);
          index := index + 1;
        }
        assert ctx.targets == SkipAll(before.targets);
        next, effect := InspectBootStep();
        return;
      }
      next, effect := PlanLoop();
    }

    /** Sums the images up. */
    method Summarise()
      modifies this`summary
      ensures summary == if ctx.targets == [] then old(summary) else Summarised(ctx.targets)
    {
      if ctx.targets == [] {
        return;
      }
      var total, skipped, back := 0, true, false;
      for i := 0 to |ctx.targets|
        invariant total == TotalTransferred(ctx.targets[..i])
        invariant skipped <==> forall k :: 0 <= k < i ==> ctx.targets[k].report.uploadSkipped
        invariant back <==> exists k :: 0 <= k < i && ctx.targets[k].report.rolledBack
      {
        assert ctx.targets[..i + 1][..i] == ctx.targets[..i];
        total := total + ctx.targets[i].report.bytesTransferred;
        skipped := skipped && ctx.targets[i].report.uploadSkipped;
        back := back || ctx.targets[i].report.rolledBack;
      }
      assert ctx.targets[..|ctx.targets|] == ctx.targets;
      summary := Summary(total, skipped, back, ctx.targets[0].report.uploadSlot);
    }

    method UploadedStep(transferred: nat, alreadyPresent: bool) returns (next: UpdateState, effect: Effect)
      requires ctx.current < |ctx.targets|
      modifies this`ctx
      ensures Outcome(ctx, next, effect) == AfterUpload(plan, old(ctx), transferred, alreadyPresent)
    {
      hide NextTarget;
      ctx := ctx.(uploadInProgress := false);
      var entry := ctx.targets[ctx.current].report;
      var skipped := entry.uploadSkipped || alreadyPresent;
      ctx := WithReport(ctx, ctx.current, entry.(bytesTransferred := transferred, uploadSkipped := skipped));
      if plan.mode.UploadOnly? {
        next, effect := NextTargetStep();
        return;
      }
      return VerifyingUpload, ReadState;
    }

    method VerifiedStep() returns (next: UpdateState, effect: Effect)
      requires ctx.current < |ctx.targets|
      modifies this`ctx
      ensures Outcome(ctx, next, effect) == UploadVerified(plan, old(ctx))
    {
      hide MarkOrSkip;
      var t := Table(ctx);
      var holder := FindHolder(ctx.targets[ctx.current].target);
      if holder == |t| {
        next, effect := GiveUp(ImageMismatch);
        return;
      }
      ctx := WithReport(ctx, ctx.current, ctx.targets[ctx.current].report.(uploadSlot := Some(t[holder].slot)));
      next, effect := MarkOrSkipStep();
    }

    method MarkRefusedStep(error: Error) returns (next: UpdateState, effect: Effect)
      modifies this`ctx
      ensures Outcome(ctx, next, effect) == MarkRefused(error, old(ctx))
    {
      hide Recoverable;
      if Recoverable(error) && !ctx.spent.markRetried {
        ctx := ctx.(spent := ctx.spent.(markRetried := true));
        return InspectingImages, ReadState;
      }
      next, effect := GiveUpWith(error);
    }

    method ResetRefusedStep(error: Error) returns (next: UpdateState, effect: Effect)
      modifies this`ctx
      ensures Outcome(ctx, next, effect) == ResetRefused(error, old(ctx))
    {
      if SmpError(error) == Some(SMP_BUSY) && !ctx.spent.resetForced {
        ctx := ctx.(spent := ctx.spent.(resetForced := true));
        return Resetting, ForceReset;
      }
      if error.code.Disconnection? || error.code.Timeout? {
        return AwaitingDisconnect, AwaitDisconnect;
      }
      next, effect := GiveUpWith(error);
    }

    method WaitReadFailedStep(error: Error) returns (next: UpdateState, effect: Effect)
      modifies this`ctx
      ensures Outcome(ctx, next, effect) == WaitReadFailed(state, error, old(ctx))
    {
      if error.code.Disconnection? {
        return AwaitingReconnect, RequestReconnect;
      }
      if error.code.Timeout? {
        return state, AwaitApply;
      }
      next, effect := GiveUpWith(error);
    }

    /** The current image is confirmed: on to the next one owed a confirm, or to the check. */
    method ConfirmedStep() returns (next: UpdateState, effect: Effect)
      requires ctx.current < |ctx.targets|
      modifies this`ctx
      ensures Outcome(ctx, next, effect) == AfterConfirm(old(ctx))
    {
      ctx := ctx.(targets := ctx.targets[ctx.current := ctx.targets[ctx.current].(inTrial := false)]);
      var owed := FindInTrial(ctx.current);
      ctx := ctx.(current := owed);
      if owed < |ctx.targets| {
        return Confirming, Confirm;
      }
      ctx := ctx.(swapScheduled := false);
      return VerifyingConfirmed, ReadState;
    }

    method ConfirmFailedStep(error: Error) returns (next: UpdateState, effect: Effect)
      modifies this`ctx
      ensures Outcome(ctx, next, effect) == ConfirmFailed(error, old(ctx))
    {
      ctx := ctx.(swapScheduled := true);
      if error.code.Disconnection? {
        return AwaitingReconnect, RequestReconnect;
      }
      if error.code.Timeout? && !ctx.spent.confirmReread {
        ctx := ctx.(spent := ctx.spent.(confirmReread := true));
        return VerifyingBooted, ReadState;
      }
      next, effect := GiveUpWith(error);
    }

    /** Whether the table shows every `Client` image kept. */
    method ClientsKept() returns (kept: bool)
      ensures kept == AllClientsKept(Table(ctx), ctx.targets)
    {
      hide Keeps;
      for i := 0 to |ctx.targets|
        invariant forall k :: 0 <= k < i && ctx.targets[k].target.commit.Client? ==>
                  Keeps(Table(ctx), ctx.targets[k].target)
      {
        if ctx.targets[i].target.commit.Client? && !Keeps(Table(ctx), ctx.targets[i].target) {
          return false;
        }
      }
      return true;
    }

    method ConfirmVerifiedStep() returns (next: UpdateState, effect: Effect)
      modifies this`ctx
      ensures Outcome(ctx, next, effect) == ConfirmVerified(old(ctx))
    {
      hide AllClientsKept, AwaitCommit;
      var kept := ClientsKept();
      if kept {
        next, effect := AwaitCommitStep();
        return;
      }
      ctx := ctx.(swapScheduled := true);
      next, effect := GiveUp(UpdateFailed);
    }

    method TickStep(now: int) returns (next: UpdateState, effect: Effect)
      modifies this`ctx
      ensures Outcome(ctx, next, effect) == OnTick(state, now, timers, old(ctx))
    {
      if state.AwaitingDisconnect? && timers.grace.Some? && now >= timers.grace.value {
        return AwaitingReconnect, RequestReconnect;
      }
      if !PollDue(state, now, timers) {
        return state, Nothing;
      }
      if timers.deadline.Some? && now >= timers.deadline.value {
        next, effect := GiveUp(Timeout);
        return;
      }
      return state, ReadState;
    }

    /** The states before anything has been sent that changes the device. */
    method QueryStep(event: Event) returns (next: UpdateState, effect: Effect)
      requires Decidable(state, event, ctx)
      modifies this`ctx
      ensures Outcome(ctx, next, effect) == DecideQuery(plan, state, event, old(ctx))
    {
      hide RecordMode, Decidable;
      if state.Idle? && event.Start? {
        return QueryingParameters, QueryParameters;
      } else if state.QueryingParameters? && event.ParametersRead? {
        ctx := ctx.(bufSize := event.bufSize);
        return QueryingBootloader, QueryBootloader;
      } else if state.QueryingParameters? && event.ParametersUnavailable? {
        return QueryingBootloader, QueryBootloader;
      } else if state.QueryingBootloader? && event.BootloaderRead? {
        ctx := ctx.(mode := RecordMode(event.mode, plan), noDowngrade := event.noDowngrade);
        return InspectingImages, ReadState;
      } else if state.QueryingBootloader? && event.Failure?
             && (event.error.code.ProtocolError? || event.error.code.CborDecode?) {
        ctx := ctx.(mode := RecordMode(Unknown, plan));
        return InspectingImages, ReadState;
      } else if state.InspectingImages? && event.StateRead? {
        ctx := ctx.(device := event.table);
        return Planning, Continue;
      } else if (state.QueryingBootloader? || state.InspectingImages?) && event.Failure? {
        next, effect := GiveUpWith(event.error);
      } else {
        next, effect := GiveUp(Internal);
      }
    }

    /** The states that stage the images, up to the reset. */
    method StagingStep(event: Event) returns (next: UpdateState, effect: Effect)
      requires Decidable(state, event, ctx)
      modifies this`ctx
      ensures Outcome(ctx, next, effect) == DecideStaging(plan, state, event, old(ctx))
    {
      hide PlanFromState, AfterUpload, UploadVerified, NextTarget, MarkRefused, ResetRefused;
      if state.Planning? && event.Proceed? {
        next, effect := PlanStep();
      } else if state.Uploading? && event.UploadFinished? {
        next, effect := UploadedStep(event.transferred, event.alreadyPresent);
      } else if (state.Uploading? && event.UploadSuspended?) || (state.AwaitingDisconnect? && event.Disconnected?) {
        return AwaitingReconnect, RequestReconnect;
      } else if state.VerifyingUpload? && event.StateRead? {
        ctx := ctx.(device := event.table);
        next, effect := VerifiedStep();
      } else if state.MarkingForTest? && event.MarkedForTest? {
        ctx := ctx.(device := event.table, swapScheduled := true);
        next, effect := NextTargetStep();
      } else if state.MarkingForTest? && event.Failure? {
        next, effect := MarkRefusedStep(event.error);
      } else if state.Resetting? && event.ResetAccepted? {
        return AwaitingDisconnect, AwaitDisconnect;
      } else if state.Resetting? && event.Failure? {
        next, effect := ResetRefusedStep(event.error);
      } else if state.AwaitingReconnect? && event.Reconnected? {
        if ctx.uploadInProgress {
          return Uploading, ResumeUpload;
        }
        return VerifyingBooted, ReadState;
      } else if ((state.Uploading? || state.VerifyingUpload?) && event.Failure?)
             || (state.AwaitingReconnect? && event.ReconnectFailed?) {
        next, effect := GiveUpWith(event.error);
      } else {
        next, effect := GiveUp(Internal);
      }
    }

    /** The states after the reset. */
    method BootedStep(event: Event) returns (next: UpdateState, effect: Effect)
      requires Decidable(state, event, ctx)
      modifies this`ctx
      ensures Outcome(ctx, next, effect) == DecideBooted(plan, state, event, old(ctx))
    {
      hide InspectBoot, AwaitDevice, AwaitCommit, ConfirmVerified, AfterConfirm, ConfirmFailed, WaitReadFailed;
      if state.AwaitingConfirmation? && event.ConfirmApproved? {
        ctx := ctx.(spent := ctx.spent.(confirmApproved := true));
        return Confirming, Confirm;
      } else if state.Confirming? && event.Confirmed? {
        ctx := ctx.(device := event.table);
        next, effect := ConfirmedStep();
      } else if event.StateRead?
             && (state.VerifyingBooted? || Waiting(state) || state.VerifyingConfirmed?) {
        ctx := ctx.(device := event.table);
        if state.VerifyingBooted? {
          next, effect := InspectBootStep();
        } else if state.AwaitingDeviceApply? {
          next, effect := AwaitDeviceStep();
        } else if state.AwaitingDeviceCommit? {
          next, effect := AwaitCommitStep();
        } else {
          next, effect := ConfirmVerifiedStep();
        }
      } else if state.VerifyingBooted? && event.Failure? {
        next, effect := GiveUpWith(event.error);
      } else if Waiting(state) && event.Failure? {
        next, effect := WaitReadFailedStep(event.error);
      } else if (state.Confirming? || state.VerifyingConfirmed?) && event.Failure? {
        next, effect := ConfirmFailedStep(event.error);
      } else {
        next, effect := GiveUp(Internal);
      }
    }

    /** Decides on an event. */
    method DecideStep(event: Event, now: int) returns (next: UpdateState, effect: Effect)
      requires IsTerminal(state) || Decidable(state, event, ctx)
      modifies this`ctx
      ensures Outcome(ctx, next, effect) == Decide(plan, state, event, now, timers, old(ctx))
    {
      hide DecideQuery, DecideStaging, DecideBooted, OnTick, Decidable;
      if event.Cancel? {
        if IsTerminal(state) {
          return state, Nothing;
        }
        ctx := ctx.(verdict := ctx.verdict.(revertPending := ctx.swapScheduled));
        return Cancelled, Finish;
      }
      if event.Tick? {
        next, effect := TickStep(now);
      } else if IsTerminal(state) {
        return state, Nothing;
      } else if state.Idle? || state.QueryingParameters? || state.QueryingBootloader? || state.InspectingImages? {
        next, effect := QueryStep(event);
      } else if state.Planning? || state.Uploading? || state.VerifyingUpload? || state.MarkingForTest?
             || state.Resetting? || state.AwaitingDisconnect? || state.AwaitingReconnect? {
        next, effect := StagingStep(event);
      } else {
        next, effect := BootedStep(event);
      }
    }

    /** Decides within the machine's own guards: a slip of the driver is a failure, not an access out of bounds. */
    method GuardedStep(event: Event, now: int) returns (next: UpdateState, effect: Effect)
      modifies this`ctx
      ensures Outcome(ctx, next, effect) == Guarded(plan, old(Value()), event, now)
    {
      hide Decide, Decidable;
      if IsTerminal(state) || Decidable(state, event, ctx) {
        next, effect := DecideStep(event, now);
      } else {
        next, effect := GiveUp(Internal);
      }
      if NamesCurrent(effect) && ctx.current >= |ctx.targets| {
        next, effect := GiveUp(Internal);
      }
    }

    /** One event: decide, sum up, complete the report if the update ends, keep the deadlines. */
    method Apply(event: Event, now: int) returns (step: Step)
      modifies this
      ensures (Value(), step) == ApplyEvent(plan, old(Value()), event, now)
    {
      hide Guarded, KeepTime, Summarised, PollDue;
      ghost var before := Value();
      var next, effect := GuardedStep(event, now);
      Summarise();
      step := StepOf(Outcome(ctx, next, effect));
      if effect.Finish? {
        ending := Ending(next, Some(if ctx.targets == [] then [] else ctx.targets[0].target.hash), ctx.device);
      }
      if event.Tick? && PollDue(state, now, timers) {
        timers := timers.(poll := None);
      }
      timers := KeepTime(next, effect, now, plan, timers);
      state := next;
    }

    /**
      The driver's loop: hands an event over and goes on planning until the machine asks for
      something. It ends because every further planning step is about a later target.
     */
    method Dispatch(event: Event, now: int, ghost blamed: bool, ghost outstanding: Effect) returns (step: Step)
      requires Good(plan, blamed, Value(), outstanding)
      requires Answers(outstanding, event) && (BringsInternal(event) ==> blamed)
      modifies this
      ensures !step.effect.Continue?
      ensures Good(plan, blamed, Value(), Next(outstanding, step))
    {
      hide ApplyEvent, Good, Transition;
      ApplyGood(plan, blamed, Value(), outstanding, event, now);
      step := Apply(event, now);
      ghost var open := Next(outstanding, step);
      while step.effect.Continue?
        invariant Good(plan, blamed, Value(), open)
        invariant open == Next(if step.effect.Nothing? then outstanding else open, step)
        decreases if step.effect.Continue? then |ctx.targets| - ctx.current + 1 else 0
      {
        ghost var before := Value();
        PlanningAdvances(plan, blamed, before, now);
        step := Apply(Proceed, now);
        open := step.effect;
      }
    }
  }

  /** A planning step is answered with a request, or with planning about a later target. */
  lemma PlanningAdvances(plan: Plan, blamed: bool, m: MachineState, now: int)
    requires Good(plan, blamed, m, Continue)
    ensures var r := ApplyEvent(plan, m, Proceed, now);
            && Good(plan, blamed, r.0, r.1.effect) && !r.1.effect.Nothing?
            && |r.0.ctx.targets| == |m.ctx.targets| && m.ctx.current < |m.ctx.targets|
            && (r.1.effect.Continue? ==> m.ctx.current < r.0.ctx.current)
  {
    hide ApplyEvent, Invariant, TimersFit, Grounds;
    assert m.state.Planning?;
    PlanningLocated(plan, blamed, m);
    ApplyGood(plan, blamed, m, Continue, Proceed, now);
    DecidedTransition(plan, blamed, m, Continue, Proceed, now);
  }

  lemma PlanningLocated(plan: Plan, blamed: bool, m: MachineState)
    requires Invariant(plan, blamed, m.state, m.ctx) && m.state.Planning?
    ensures m.ctx.current < |m.ctx.targets|
  {
  }

  lemma ObservedNone(t: SlotTable, targets: seq<Image>)
    ensures ObservedBelow(t, targets, 0) == targets
  {
  }

  lemma ObservedNext(t: SlotTable, targets: seq<Image>, end: nat)
    requires end < |targets|
    ensures ObservedBelow(t, targets, end)[end] == targets[end]
    ensures ObservedBelow(t, targets, end + 1) == ObservedBelow(t, targets, end)[end := Observed(t, targets[end])]
    ensures Observed(t, targets[end]) == targets[end] ==>
            ObservedBelow(t, targets, end + 1) == ObservedBelow(t, targets, end)
  {
    hide Observed;
  }

  lemma NotRunSplits(t: SlotTable, targets: seq<Image>)
    ensures (exists k :: 0 <= k < |targets| && NotRun(t, targets[k])) <==>
            (exists k :: 0 <= k < |targets| && Reverted(t, targets[k]))
                || (exists k :: 0 <= k < |targets| && NotBooted(t, targets[k]))
  {
    hide NotRun, AnythingPending;
    forall k | 0 <= k < |targets|
      ensures NotRun(t, targets[k]) <==> Reverted(t, targets[k]) || NotBooted(t, targets[k])
    {
    }
  }

  lemma {:induction false} FirstFailedIs(t: SlotTable, targets: seq<Image>, from: nat, first: nat)
    requires from <= first <= |targets|
    requires forall k :: from <= k < first ==> !Reports(t, targets[k], ApplyFailed)
    requires first < |targets| ==> Reports(t, targets[first], ApplyFailed)
    ensures FirstFailed(t, targets, from) == first
  {
    hide Reports;
  }

  lemma {:induction false} FirstLostIs(t: SlotTable, targets: seq<Image>, from: nat, first: nat)
    requires from <= first <= |targets|
    requires forall k :: from <= k < first ==> !Lost(t, targets[k])
    requires first < |targets| ==> Lost(t, targets[first])
    ensures FirstLost(t, targets, from) == first
  {
    hide Lost;
  }
}
