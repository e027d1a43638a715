/**
  Which updates are refused: the checks made before the first command, stated on the recorded mode, the
  plan and the versions, and what they are worth to a whole run.
 */
module UpdateRefusals {
  import opened Common
  import opened UpdateTypes
  import opened UpdateMachine
  import opened UpdateInvariant
  import opened UpdateSteps
  import opened UpdateRuns
  import opened UpdateTheorems
  import opened UpdateRecovery
  import opened UpdateRows
  import opened UpdateScenarios

  // --- What is refused -----------------------------------------------------------------------------

  /** The bootloader has no second slot to update into. */
  predicate NoPath(mode: McubootMode) {
    mode == SingleSlot || mode == FirmwareLoader || mode == RamLoad || mode == SingleSlotRamLoad
  }

  /** The bootloader runs images in place. */
  predicate InPlace(mode: McubootMode) {
    mode == DirectXip || mode == DirectXipWithRevert
  }

  /** The bootloader keeps no copy to go back to. */
  predicate WithoutRevert(mode: McubootMode) {
    mode == UpgradeOnly || mode == DirectXip
  }

  /** The plan stages only, or does without a way back. */
  predicate Accepting(plan: Plan) {
    plan.mode == UploadOnly || plan.allowNoRevert
  }

  /** The mode takes this many images under this plan. */
  predicate Permits(plan: Plan, mode: McubootMode, images: nat) {
    !NoPath(mode) && (InPlace(mode) ==> images <= 1) && (WithoutRevert(mode) ==> Accepting(plan))
  }

  /** A lower version: by major, then minor, then revision; the build does not count. */
  predicate Lower(a: Version, b: Version) {
    || a.major < b.major
    || (a.major == b.major && a.minor < b.minor)
    || (a.major == b.major && a.minor == b.minor && a.revision < b.revision)
  }

  /** The device runs, for the target's image, another file with a known version above the target's. */
  predicate Backwards(t: SlotTable, target: Target) {
    exists k :: 0 <= k < |t| && RunningRow(t, target.image, k) && !Carries(t[k], target)
      && t[k].version.Some? && Lower(target.version, t[k].version.value)
  }

  /** Both sides want downgrades refused, and one of the targets is one by the last table read. */
  predicate Degrades(plan: Plan, c: Context) {
    && plan.checkDowngrade && c.noDowngrade && c.device.Some?
    && exists i :: 0 <= i < |c.targets| && Backwards(c.device.value, c.targets[i].target)
  }

  /** What the checks answer: exactly one of the four refusals, or none. */
  predicate Warranted(plan: Plan, c: Context, refusal: Option<Refusal>) {
    var mode, images := c.mode.mode, |c.targets|;
    match refusal
    case Some(UnsupportedMode) => NoPath(mode)
    case Some(MultiImageUnsupported) => InPlace(mode) && images > 1
    case Some(RevertUnavailable) => WithoutRevert(mode) && !(InPlace(mode) && images > 1) && !Accepting(plan)
    case Some(Downgrade) => Permits(plan, mode, images) && Degrades(plan, c)
    case None => Permits(plan, mode, images) && !Degrades(plan, c)
  }

  lemma LowerIsOlder(a: Version, b: Version)
    ensures Older(a, b) <==> Lower(a, b)
  {
  }

  lemma BackwardsExactly(t: SlotTable, target: Target)
    ensures TargetIsDowngrade(t, target) <==> Backwards(t, target)
  {
    hide Older, Lower;
    var a := Active(t, target.image);
    if a < |t| && t[a].version.Some? {
      LowerIsOlder(target.version, t[a].version.value);
    }
    assert a < |t| ==> RunningRow(t, target.image, a);
    forall k | 0 <= k < |t| && RunningRow(t, target.image, k)
      ensures k == a
    {
    }
  }

  lemma DegradesExactly(plan: Plan, c: Context)
    ensures IsDowngrade(plan, c) <==> Degrades(plan, c)
  {
    hide TargetIsDowngrade, Backwards;
    forall i | 0 <= i < |c.targets|
      ensures TargetIsDowngrade(Table(c), c.targets[i].target) <==> Backwards(Table(c), c.targets[i].target)
    {
      BackwardsExactly(Table(c), c.targets[i].target);
      if c.device.None? {
        NothingRuns(c.targets[i].target);
      }
    }
    if c.device.None? {
      forall i | 0 <= i < |c.targets|
        ensures !TargetIsDowngrade(Table(c), c.targets[i].target)
      {
        NothingRuns(c.targets[i].target);
      }
    }
  }

  lemma NothingRuns(target: Target)
    ensures !TargetIsDowngrade([], target)
  {
  }

  /** The checks refuse exactly what is warranted, and what is warranted is one thing only. */
  lemma RefusalExactly(plan: Plan, c: Context, refusal: Option<Refusal>)
    ensures RefusalFor(plan, c) == refusal <==> Warranted(plan, c, refusal)
  {
    hide IsDowngrade, Degrades;
    DegradesExactly(plan, c);
  }

  // --- When the checks are made --------------------------------------------------------------------

  /** No checks are on record, and nothing is refused. */
  predicate Unchecked(c: Context) {
    !c.spent.preconditionsChecked && c.verdict.refusal.None?
  }

  /** The checks look only at this much. */
  predicate Alike(c: Context, d: Context) {
    d.mode == c.mode && d.device == c.device && d.noDowngrade == c.noDowngrade && SameTargets(c, d)
  }

  lemma RefusalAlike(plan: Plan, c: Context, d: Context)
    requires Alike(c, d)
    ensures RefusalFor(plan, c) == RefusalFor(plan, d)
  {
    hide TargetIsDowngrade, ModeRefusal;
    assert forall i :: 0 <= i < |c.targets| ==> d.targets[i].target == c.targets[i].target;
  }

  /** An outcome that put the checks on record says what they answered; if they passed, a command follows. */
  predicate Answered(plan: Plan, o: Outcome) {
    o.ctx.spent.preconditionsChecked ==>
      && o.ctx.verdict.refusal == RefusalFor(plan, o.ctx)
      && (o.ctx.verdict.refusal.None? ==> o.effect.StartUpload? || o.effect.MarkForTest? || o.effect.Reset?)
  }

  lemma CheckAnswers(plan: Plan, c: Context)
    requires Unchecked(c)
    ensures match CheckPreconditions(plan, c)
            case Ok(d) => d == c.(spent := d.spent) && d.spent.preconditionsChecked && RefusalFor(plan, c).None?
            case Err(o) => Answered(plan, o) && o.ctx.verdict.refusal.Some?
  {
    hide RefusalFor;
    if CheckPreconditions(plan, c).Err? {
      RefusalAlike(plan, c, CheckPreconditions(plan, c).error.ctx);
    }
  }

  lemma StagedAnswers(plan: Plan, c: Context)
    requires Unchecked(c)
    ensures Answered(plan, Staged(plan, c))
  {
    hide InspectBoot, CheckPreconditions, RefusalFor;
    CheckAnswers(plan, c);
    InspectBootSpends(plan, c);
    if CheckPreconditions(plan, c).Ok? {
      RefusalAlike(plan, c, CheckPreconditions(plan, c).value);
    }
  }

  lemma UploadAnswers(plan: Plan, c: Context)
    requires Unchecked(c)
    ensures Answered(plan, PlanUpload(plan, c))
  {
    hide CheckPreconditions, RefusalFor;
    CheckAnswers(plan, c);
    if CheckPreconditions(plan, c).Ok? {
      RefusalAlike(plan, c, PlanUpload(plan, c).ctx);
    }
  }

  /** Once the checks have passed, marking goes on to a command: without marks there is one image, and it is done. */
  lemma MarkOrSkipCommands(plan: Plan, c: Context)
    requires c.spent.preconditionsChecked && RefusalFor(plan, c).None? && c.verdict.refusal.None?
    requires !plan.mode.UploadOnly? && c.current < |c.targets|
    ensures Answered(plan, MarkOrSkip(plan, c))
  {
    hide IsDowngrade;
    MarkOrSkipFramed(plan, c);
    RefusalAlike(plan, c, MarkOrSkip(plan, c).ctx);
  }

  lemma MarkAnswers(plan: Plan, c: Context, slot: nat)
    requires Unchecked(c) && c.current < |c.targets| && !plan.mode.UploadOnly?
    ensures Answered(plan, PlanMark(plan, c, slot))
  {
    hide CheckPreconditions, RefusalFor, MarkOrSkip;
    var entry := c.targets[c.current].report.(uploadSkipped := true);
    var noted := WithReport(c, c.current, entry);
    CheckAnswers(plan, noted);
    if CheckPreconditions(plan, noted).Ok? {
      var d := CheckPreconditions(plan, noted).value.(targets := WithReport(c, c.current,
                                                                       entry.(uploadSlot := Some(slot))).targets);
      RefusalAlike(plan, noted, d);
      MarkOrSkipCommands(plan, d);
    }
  }

  lemma {:induction false} PlanFromAnswers(plan: Plan, c: Context)
    requires Unchecked(c)
    ensures Answered(plan, PlanFrom(plan, c))
    decreases |c.targets| - c.current
  {
    hide Staged, ChooseBuild, PlanMark, PlanUpload, NeedOf, Answered;
    if c.current >= |c.targets| {
      StagedAnswers(plan, c);
    } else {
      ChooseBuildFramed(c);
      if ChooseBuild(c).Ok? {
        var d := ChooseBuild(c).value;
        var need := NeedOf(plan, Table(d), d.targets[d.current].target, d.targets[d.current].report);
        match need
        case Skip(_, _) => PlanFromAnswers(plan, SkipCurrent(d, need));
        case Mark(slot) =>
          OnlyToBoot(plan, d);
          MarkAnswers(plan, d, slot);
        case Upload => UploadAnswers(plan, d);
      } else {
        StillUnchecked(plan, c);
      }
    }
  }

  lemma OnlyToBoot(plan: Plan, d: Context)
    requires d.current < |d.targets|
    ensures NeedOf(plan, Table(d), d.targets[d.current].target, d.targets[d.current].report).Mark? ==>
              !plan.mode.UploadOnly?
  {
  }

  lemma StillUnchecked(plan: Plan, c: Context)
    requires Unchecked(c) && c.current < |c.targets| && ChooseBuild(c).Err?
    ensures Answered(plan, ChooseBuild(c).error)
  {
    hide ChosenBuild;
  }

  lemma PlanningAnswers(plan: Plan, c: Context)
    requires Unchecked(c)
    ensures Answered(plan, PlanFromState(plan, c))
  {
    hide PlanFrom, InspectBoot, AfterReset, RefusalFor;
    PlanFromAnswers(plan, c);
    InspectBootSpends(plan, c.(targets := SkipAll(c.targets)));
  }

  /** Nothing but planning puts the checks on record. */
  lemma BootedUnchecked(plan: Plan, state: UpdateState, event: Event, c: Context)
    requires Decidable(state, event, c)
    ensures DecideBooted(plan, state, event, c).ctx.spent.preconditionsChecked == c.spent.preconditionsChecked
  {
    hide InspectBoot, AwaitDevice, AwaitCommit, AllClientsKept, NextInTrial;
    var d := c.(device := if CarriesTable(event) then event.table else c.device);
    InspectBootSpends(plan, d);
    AwaitDeviceSpends(plan, d);
    AwaitCommitSpends(d);
  }

  lemma StagingAnswers(plan: Plan, blamed: bool, state: UpdateState, event: Event, c: Context)
    requires Invariant(plan, blamed, state, c) && Decidable(state, event, c) && !IsTerminal(state) && Unchecked(c)
    ensures var o := DecideStaging(plan, state, event, c);
            o.ctx.spent.preconditionsChecked ==> state.Planning? && event.Proceed? && Answered(plan, o)
  {
    hide PlanFromState, Answered;
    PlanningAnswers(plan, c);
  }

  lemma DecideAnswers(plan: Plan, blamed: bool, state: UpdateState, event: Event, now: int, timers: Timers, c: Context)
    requires Invariant(plan, blamed, state, c) && Decidable(state, event, c) && !IsTerminal(state) && Unchecked(c)
    ensures var o := Decide(plan, state, event, now, timers, c);
            o.ctx.spent.preconditionsChecked ==> state.Planning? && event.Proceed? && Answered(plan, o)
  {
    hide DecideBooted, DecideStaging, Answered, Invariant;
    BootedUnchecked(plan, state, event, c);
    StagingAnswers(plan, blamed, state, event, c);
  }

  // --- Whole runs ----------------------------------------------------------------------------------

  /** The last event of the run put the checks on record. */
  predicate ChecksMade(plan: Plan, q: Run) {
    q.Then? && !At(plan, q.before).ctx.spent.preconditionsChecked && At(plan, q).ctx.spent.preconditionsChecked
  }

  /** The commands that change the device. */
  predicate Changes(effect: Effect) {
    effect.StartUpload? || effect.ResumeUpload? || effect.MarkForTest? || effect.Reset? || effect.ForceReset?
  }

  /**
    The checks are made while planning, on the table held then, and their answer is the warranted one: a
    refusal ends the update, and if nothing is refused the same step sends the first command.
   */
  lemma ChecksAnswered(plan: Plan, q: Run)
    requires Disciplined(plan, q) && ChecksMade(plan, q)
    ensures var b, m := At(plan, q.before), At(plan, q);
            && b.state.Planning? && m.ctx.device == b.ctx.device && m.ctx.mode == b.ctx.mode && m.ctx.device.Some?
            && Warranted(plan, m.ctx, m.ctx.verdict.refusal)
            && (if m.ctx.verdict.refusal.Some? then m.state.Failed? && LastStep(plan, q).effect.Finish?
                else Changes(LastStep(plan, q).effect))
  {
    hide At, LastStep, Decide, Warranted, RefusalFor, Course, Grounds, Outstanding, TimersFit, Invariant;
    var b, m := At(plan, q.before), At(plan, q);
    Stepped(plan, q);
    NeverBlind(plan, q.before);
    assert !IsTerminal(b.state);
    Decided(plan, q);
    NothingRefused(plan, Blamed(q), b, Outstanding(plan, q.before));
    DecideAnswers(plan, Blamed(q), b.state, q.event, q.now, b.timers, b.ctx);
    RefusalExactly(plan, m.ctx, m.ctx.verdict.refusal);
    if m.ctx.verdict.refusal.Some? {
      RefusalEnds(plan, Blamed(q), m, Outstanding(plan, q));
    }
  }

  lemma NothingRefused(plan: Plan, blamed: bool, m: MachineState, outstanding: Effect)
    requires Good(plan, blamed, m, outstanding) && !IsTerminal(m.state)
    ensures Invariant(plan, blamed, m.state, m.ctx) && m.ctx.verdict.refusal.None?
  {
    hide TimersFit;
  }

  lemma RefusalEnds(plan: Plan, blamed: bool, m: MachineState, outstanding: Effect)
    requires Good(plan, blamed, m, outstanding) && m.ctx.verdict.refusal.Some?
    ensures m.state.Failed? && forall effect :: Expects(m.state, effect) ==> effect.Finish?
  {
    hide TimersFit;
  }

  /** Where in the run the checks were made. */
  function ChecksAt(plan: Plan, r: Run): Run {
    if r.Then? && !ChecksMade(plan, r) then ChecksAt(plan, r.before) else r
  }

  lemma {:induction false} ChecksFound(plan: Plan, r: Run)
    requires Disciplined(plan, r) && At(plan, r).ctx.spent.preconditionsChecked
    ensures var q := ChecksAt(plan, r);
            && ChecksMade(plan, q) && Continues(r, q) && Disciplined(plan, q)
            && At(plan, r).ctx.mode == At(plan, q).ctx.mode && |At(plan, r).ctx.targets| == |At(plan, q).ctx.targets|
  {
    hide At, LastStep, Good, Course, Grounds;
    match r
    case Begin(targets) => BeginsIdle(plan, targets);
    case Then(before, _, _) =>
      if !ChecksMade(plan, r) {
        ChecksFound(plan, before);
        Stepped(plan, r);
        CheckedLate(plan, before);
      }
  }

  /** Checks are on record only once the mode is known. */
  lemma {:induction false} CheckedLate(plan: Plan, r: Run)
    requires Disciplined(plan, r) && At(plan, r).ctx.spent.preconditionsChecked
    ensures !Early(At(plan, r).state)
  {
    hide At, LastStep, Good, Course, Grounds, Warranted;
    match r
    case Begin(targets) => BeginsIdle(plan, targets);
    case Then(before, _, _) =>
      Stepped(plan, r);
      if ChecksMade(plan, r) {
        ChecksAnswered(plan, r);
      } else {
        CheckedLate(plan, before);
      }
  }

  lemma OnRecord(plan: Plan, blamed: bool, m: MachineState, outstanding: Effect, effect: Effect)
    requires Good(plan, blamed, m, outstanding) && Expects(m.state, effect) && Changes(effect)
    ensures m.ctx.spent.preconditionsChecked
  {
    hide TimersFit;
  }

  lemma {:induction false} CommandsOnRecord(plan: Plan, r: Run, effect: Effect)
    requires Disciplined(plan, r) && Changes(effect) && Emissions(plan, r, effect) > 0
    ensures At(plan, r).ctx.spent.preconditionsChecked
  {
    hide At, LastStep, Good, Course, Grounds, Expects;
    if r.Begin? {
    } else {
      Stepped(plan, r);
      if LastStep(plan, r).effect == effect {
        OnRecord(plan, Blamed(r), At(plan, r), Outstanding(plan, r), effect);
      } else {
        CommandsOnRecord(plan, r.before, effect);
      }
    }
  }

  /**
    Only what is warranted is sent: a run that uploads, marks or resets made the checks before, on a mode
    and a number of images that the plan permits, and with no target below what the table held then showed
    running, if both sides wanted that refused.
   */
  lemma OnlyPermittedIsSent(plan: Plan, r: Run, effect: Effect)
    requires Disciplined(plan, r) && Changes(effect) && Emissions(plan, r, effect) > 0
    ensures Permits(plan, At(plan, r).ctx.mode.mode, |At(plan, r).ctx.targets|)
    ensures var q := ChecksAt(plan, r);
            ChecksMade(plan, q) && Continues(r, q) && At(plan, q).ctx.device.Some? && !Degrades(plan, At(plan, q).ctx)
  {
    hide At, Degrades, Permits;
    CommandsOnRecord(plan, r, effect);
    ChecksFound(plan, r);
    var q := ChecksAt(plan, r);
    ChecksAnswered(plan, q);
    CommandsChecked(plan, r, effect);
    if At(plan, q).ctx.verdict.refusal.Some? {
      EndedForGood(plan, q, r);
    }
  }

  // --- Confirms ------------------------------------------------------------------------------------

  /** The run has sent a command that changes the device. */
  predicate Sent(plan: Plan, r: Run) {
    r.Then? && (Changes(LastStep(plan, r).effect) || Sent(plan, r.before))
  }

  lemma {:induction false} SentCounts(plan: Plan, r: Run)
    requires Sent(plan, r)
    ensures exists effect :: Changes(effect) && Emissions(plan, r, effect) > 0
  {
    hide LastStep;
    if Changes(LastStep(plan, r).effect) {
      assert Emissions(plan, r, LastStep(plan, r).effect) > 0;
    } else {
      SentCounts(plan, r.before);
      var effect :| Changes(effect) && Emissions(plan, r.before, effect) > 0;
      assert Emissions(plan, r, effect) > 0;
    }
  }

  lemma {:induction false} SentBefore(plan: Plan, r: Run, q: Run)
    requires Continues(r, q) && Sent(plan, q)
    ensures Sent(plan, r)
  {
    hide LastStep;
    if r == q {
    } else {
      SentBefore(plan, r.before, q);
    }
  }

  /**
    A confirm is the one command that can be sent without any checks: in a run that confirmed, they were
    made exactly if the run uploaded, marked or reset.
   */
  lemma ConfirmCovered(plan: Plan, r: Run)
    requires Disciplined(plan, r) && Emissions(plan, r, Confirm) > 0
    ensures At(plan, r).ctx.spent.preconditionsChecked <==> Sent(plan, r)
  {
    hide At, LastStep, Warranted;
    if Sent(plan, r) {
      SentCounts(plan, r);
      var effect :| Changes(effect) && Emissions(plan, r, effect) > 0;
      CommandsOnRecord(plan, r, effect);
    }
    if At(plan, r).ctx.spent.preconditionsChecked {
      ChecksFound(plan, r);
      var q := ChecksAt(plan, r);
      ChecksAnswered(plan, q);
      CommandsChecked(plan, r, Confirm);
      if At(plan, q).ctx.verdict.refusal.Some? {
        EndedForGood(plan, q, r);
      } else {
        SentBefore(plan, r, q);
      }
    }
  }

  /** The image runs on trial: someone else tried it out. */
  function TriedOut(a: Target): SlotTable {
    [ImageSlot(a.image, 0, None, Some(a.hash), false, false, true)]
  }

  /** Up to the plan, on a device that has no update path. */
  function Approach(a: Target): Run {
    var asked := Then(Then(Begin([a]), Start, 0), ParametersUnavailable, 0);
    Then(Then(asked, BootloaderRead(RamLoad, false), 0), StateRead(Some(TriedOut(a))), 0)
  }

  function Approached(a: Target): Context {
    Initial([a]).ctx.(mode := ModeRecord(RamLoad, Reported), device := Some(TriedOut(a)))
  }

  lemma Identified(plan: Plan, a: Target)
    ensures var asked := Then(Then(Begin([a]), Start, 0), ParametersUnavailable, 0);
            var c := Initial([a]).ctx.(mode := ModeRecord(RamLoad, Reported));
            On(plan, Then(asked, BootloaderRead(RamLoad, false), 0), Outcome(c, InspectingImages, ReadState), NO_TIMERS)
  {
    hide On, Initial, DecideStaging, DecideBooted, Recoveries, LastStep;
    BeginsOn(plan, [a]);
    var c := Initial([a]).ctx;
    BeginsAsking(plan, [a], Begin([a]));
    Walk(plan, Then(Then(Begin([a]), Start, 0), ParametersUnavailable, 0),
         Outcome(c, QueryingBootloader, QueryBootloader), NO_TIMERS, BootloaderRead(RamLoad, false), 0,
         Outcome(c.(mode := ModeRecord(RamLoad, Reported)), InspectingImages, ReadState));
  }

  lemma Approaches(plan: Plan, a: Target)
    ensures On(plan, Approach(a), Outcome(Approached(a), Planning, Continue), NO_TIMERS)
  {
    hide On, Initial, DecideStaging, DecideBooted, Recoveries, LastStep, TriedOut;
    Identified(plan, a);
    BeginsOn(plan, [a]);
    var asked := Then(Then(Begin([a]), Start, 0), ParametersUnavailable, 0);
    Walk(plan, Then(asked, BootloaderRead(RamLoad, false), 0),
         Outcome(Initial([a]).ctx.(mode := ModeRecord(RamLoad, Reported)), InspectingImages, ReadState), NO_TIMERS,
         StateRead(Some(TriedOut(a))), 0, Outcome(Approached(a), Planning, Continue));
  }

  lemma TriedOutConfirmed(plan: Plan, a: Target)
    requires plan.mode.ConfirmImmediately? && a.commit.Client? && a.hash != []
    ensures var o := PlanFromState(plan, Approached(a));
            && o.effect.Confirm? && o.ctx.current < |o.ctx.targets|
            && o.ctx.mode.mode.RamLoad? && !o.ctx.spent.preconditionsChecked
  {
    var c := Approached(a);
    assert RunningOnTrial(Table(c), c.targets[0].target);
    assert AfterReset(c);
    var d := c.(targets := SkipAll(c.targets));
    assert Runs(Table(d), d.targets[0].target);
    assert Judged(d).targets[0].inTrial;
    assert NextInTrial(Judged(d).targets, 0) == 0;
  }

  lemma Emitted(plan: Plan, r: Run, effect: Effect)
    requires r.Then? && LastStep(plan, r).effect == effect
    ensures Emissions(plan, r, effect) > 0
  {
    hide LastStep;
  }

  /**
    Confirming is not covered: an image found on trial on a device without any update path is confirmed,
    and no checks are made.
   */
  lemma ConfirmUnchecked(plan: Plan, a: Target)
    requires plan.mode.ConfirmImmediately? && a.commit.Client? && a.hash != []
    ensures var r := Then(Approach(a), Proceed, 0);
            && Disciplined(plan, r) && Emissions(plan, r, Confirm) > 0
            && NoPath(At(plan, r).ctx.mode.mode) && !At(plan, r).ctx.spent.preconditionsChecked
  {
    hide DecideBooted, Recoveries, LastStep, PlanFromState, Emissions, At, Disciplined, Outstanding, Approach,
         Approached, TimersAfter;
    Approaches(plan, a);
    TriedOutConfirmed(plan, a);
    var o := PlanFromState(plan, Approached(a));
    var r := Then(Approach(a), Proceed, 0);
    SomeTarget(a);
    Walk(plan, Approach(a), Outcome(Approached(a), Planning, Continue), NO_TIMERS, Proceed, 0, o);
    Emitted(plan, r, Confirm);
  }

  lemma SomeTarget(a: Target)
    ensures |Approached(a).targets| > 0
  {
  }
}
