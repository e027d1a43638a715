/**
  When a refused mark is tried again: the machine's allowance of one recovery, told from the requests
  and answers of a run alone.
 */
module UpdateRecovery {
  import opened Common
  import opened UpdateTypes
  import opened UpdateMachine
  import opened UpdateInvariant
  import opened UpdateSteps
  import opened UpdateRuns
  import opened UpdateTheorems

  // --- What one decision does to the allowance ----------------------------------------------------

  /** The allowance is as it was, or given back in a mode that never marks. */
  predicate SameAllowance(plan: Plan, c: Context, d: Context) {
    || d.spent.markRetried == c.spent.markRetried
    || (!d.spent.markRetried && (plan.mode.UploadOnly? || WithoutSetState(c)))
  }

  lemma AwaitCommitSpends(c: Context)
    ensures AwaitCommit(c).ctx.spent == c.spent
  {
    hide Reports, ObservedBelow, FirstLost, Lost;
  }

  lemma AwaitDeviceSpends(plan: Plan, c: Context)
    ensures AwaitDevice(plan, c).ctx.spent == c.spent
  {
    hide Reports, ObservedBelow, FirstFailed, AwaitCommit;
    AwaitCommitSpends(c.(targets := ObservedBelow(Table(c), c.targets, FirstFailed(Table(c), c.targets, 0))));
  }

  lemma InspectBootSpends(plan: Plan, c: Context)
    ensures InspectBoot(plan, c).ctx.spent == c.spent
  {
    hide AwaitDevice, NotRun, NoActiveSlot, NotBooted, JudgedImage, NextInTrial;
    AwaitDeviceSpends(plan, Judged(c));
  }

  lemma StagedSpends(plan: Plan, c: Context)
    ensures Staged(plan, c).ctx.spent.markRetried == c.spent.markRetried
  {
    hide InspectBoot, RefusalFor;
    InspectBootSpends(plan, c);
  }

  lemma NextTargetSpends(plan: Plan, c: Context)
    ensures !NextTarget(plan, c).ctx.spent.markRetried
  {
    hide Staged;
    StagedSpends(plan, c.(current := c.current + 1, spent := c.spent.(markRetried := false)));
  }

  lemma MarkOrSkipSpends(plan: Plan, c: Context)
    ensures SameAllowance(plan, c, MarkOrSkip(plan, c).ctx)
  {
    hide NextTarget;
    NextTargetSpends(plan, c.(swapScheduled := true));
  }

  lemma PlanMarkSpends(plan: Plan, c: Context, slot: nat)
    requires c.current < |c.targets|
    ensures SameAllowance(plan, c, PlanMark(plan, c, slot).ctx)
  {
    hide RefusalFor, MarkOrSkip;
    var entry := c.targets[c.current].report.(uploadSkipped := true);
    var checked := CheckPreconditions(plan, WithReport(c, c.current, entry));
    if checked.Ok? {
      var kept := WithReport(c, c.current, entry.(uploadSlot := Some(slot)));
      MarkOrSkipSpends(plan, checked.value.(targets := kept.targets));
    }
  }

  lemma {:induction false} PlanFromSpends(plan: Plan, c: Context)
    ensures SameAllowance(plan, c, PlanFrom(plan, c).ctx)
    decreases |c.targets| - c.current
  {
    hide Staged, ChooseBuild, PlanMark, NeedOf, RefusalFor;
    if c.current >= |c.targets| {
      StagedSpends(plan, c);
    } else {
      ChooseBuildFramed(c);
      ChooseBuildSpends(c);
      if ChooseBuild(c).Ok? {
        var d := ChooseBuild(c).value;
        var need := NeedOf(plan, Table(d), d.targets[d.current].target, d.targets[d.current].report);
        match need
        case Skip(_, _) => PlanFromSpends(plan, SkipCurrent(d, need));
        case Mark(slot) => PlanMarkSpends(plan, d, slot);
        case Upload =>
      }
    }
  }

  lemma ChooseBuildSpends(c: Context)
    requires c.current < |c.targets|
    ensures ChooseBuild(c).Err? ==> ChooseBuild(c).error.ctx.spent == c.spent
  {
    hide ChosenBuild;
  }

  lemma PlanFromStateSpends(plan: Plan, c: Context)
    ensures SameAllowance(plan, c, PlanFromState(plan, c).ctx)
  {
    hide PlanFrom, InspectBoot, AfterReset, SkipAll;
    PlanFromSpends(plan, c);
    InspectBootSpends(plan, c.(targets := SkipAll(c.targets)));
  }

  lemma StagingSpends(plan: Plan, state: UpdateState, event: Event, c: Context)
    requires Decidable(state, event, c) && !state.MarkingForTest?
    ensures SameAllowance(plan, c, DecideStaging(plan, state, event, c).ctx)
  {
    hide PlanFromState, NextTarget, MarkOrSkip;
    PlanFromStateSpends(plan, c);
    if state.Uploading? && event.UploadFinished? {
      var entry := c.targets[c.current].report;
      var skipped := entry.uploadSkipped || event.alreadyPresent;
      var done := entry.(bytesTransferred := event.transferred, uploadSkipped := skipped);
      NextTargetSpends(plan, WithReport(c.(uploadInProgress := false), c.current, done));
    } else if state.VerifyingUpload? && event.StateRead? {
      var d := c.(device := event.table);
      var holder := Holder(Table(d), d.targets[d.current].target);
      if holder < |Table(d)| {
        var entry := d.targets[d.current].report.(uploadSlot := Some(Table(d)[holder].slot));
        MarkOrSkipSpends(plan, WithReport(d, d.current, entry));
      }
    }
  }

  lemma BootedSpends(plan: Plan, state: UpdateState, event: Event, c: Context)
    requires Decidable(state, event, c)
    ensures DecideBooted(plan, state, event, c).ctx.spent.markRetried == c.spent.markRetried
  {
    hide InspectBoot, AwaitDevice, AllClientsKept, NextInTrial, AwaitCommit;
    var d := c.(device := if CarriesTable(event) then event.table else c.device);
    InspectBootSpends(plan, d);
    AwaitDeviceSpends(plan, d);
    AwaitCommitSpends(d);
  }

  /** The allowance is given back by the answer to a mark, and spent by a refusal it can be spent on. */
  lemma DecideSpends(plan: Plan, state: UpdateState, event: Event, now: int, timers: Timers, c: Context)
    requires Decidable(state, event, c) && !IsTerminal(state)
    ensures var o := Decide(plan, state, event, now, timers, c);
            if state.MarkingForTest? && event.MarkedForTest? then !o.ctx.spent.markRetried
            else if state.MarkingForTest? && event.Failure? then
              if Recoverable(event.error) && !c.spent.markRetried
              then o.next.InspectingImages? && o.ctx.spent.markRetried
              else o == Fail(c, event.error)
            else SameAllowance(plan, c, o.ctx)
  {
    hide DecideStaging, DecideBooted, Recoverable;
    if state.MarkingForTest? {
      MarkingSpends(plan, event, c);
    } else {
      StagingSpends(plan, state, event, c);
    }
    BootedSpends(plan, state, event, c);
  }

  lemma MarkingSpends(plan: Plan, event: Event, c: Context)
    requires Decidable(MarkingForTest, event, c)
    ensures var o := DecideStaging(plan, MarkingForTest, event, c);
            if event.MarkedForTest? then !o.ctx.spent.markRetried
            else if event.Failure? then o == MarkRefused(event.error, c)
            else o == IllegalEvent(c)
  {
    hide NextTarget;
    NextTargetSpends(plan, c.(device := if CarriesTable(event) then event.table else c.device, swapScheduled := true));
  }

  // --- The allowance over whole runs --------------------------------------------------------------

  /** The last event refuses an outstanding mark in a way that a lost answer would explain. */
  predicate Refuses(plan: Plan, r: Run) {
    r.Then? && Outstanding(plan, r.before).MarkForTest? && r.event.Failure? && Recoverable(r.event.error)
  }

  /** Some mark has been refused like that since the last mark that was answered, or since the start. */
  predicate RefusedSinceMark(plan: Plan, r: Run) {
    && r.Then?
    && !(Outstanding(plan, r.before).MarkForTest? && r.event.MarkedForTest?)
    && (Refuses(plan, r) || RefusedSinceMark(plan, r.before))
  }

  /** The allowance is spent exactly if a mark was refused since the last answered one. */
  predicate Told(plan: Plan, r: Run) {
    var m := At(plan, r);
    && (m.ctx.spent.markRetried <==> RefusedSinceMark(plan, r))
    && (Early(m.state) || plan.mode.UploadOnly? || WithoutSetState(m.ctx) ==> !m.ctx.spent.markRetried)
  }

  /** The last step of a run that was still on, as a decision. */
  lemma Decided(plan: Plan, r: Run)
    requires r.Then? && Disciplined(plan, r) && !IsTerminal(At(plan, r.before).state)
    ensures var b := At(plan, r.before);
            && Decidable(b.state, r.event, b.ctx)
            && var o := Decide(plan, b.state, r.event, r.now, b.timers, b.ctx);
               && At(plan, r).ctx == o.ctx && At(plan, r).state == o.next && LastStep(plan, r).effect == o.effect
               && At(plan, r).timers == TimersAfter(plan, b.state, r.event, r.now, b.timers, o.next, o.effect)
               && (if r.event.Tick? then o == OnTick(b.state, r.now, b.timers, b.ctx) else Asks(o.next, o.effect))
  {
    RunGood(plan, r.before);
    if Blamed(r) && !Blamed(r.before) {
      BlameKept(plan, At(plan, r.before), Outstanding(plan, r.before));
    }
    hide Good, Decide, Invariant, Answers, Decidable, KeepTime, OnTick, Asks, Summarised;
    GuardsPass(plan, Blamed(r), At(plan, r.before), Outstanding(plan, r.before), r.event, r.now);
  }

  /** A mark is outstanding exactly in the state that asks for it, and never in a mode that does not mark. */
  lemma MarksOutstanding(plan: Plan, r: Run)
    requires Disciplined(plan, r)
    ensures Outstanding(plan, r).MarkForTest? <==> At(plan, r).state.MarkingForTest?
    ensures At(plan, r).state.MarkingForTest? ==> !plan.mode.UploadOnly? && !WithoutSetState(At(plan, r).ctx)
  {
    hide At, Outstanding, TimersFit, Summarised;
    RunGood(plan, r);
  }

  lemma {:induction false} AllowanceTold(plan: Plan, r: Run)
    requires Disciplined(plan, r)
    ensures Told(plan, r)
  {
    hide At, LastStep, Good, Course, Grounds, Decide, Outstanding, Recoverable;
    match r
    case Begin(targets) => BeginsIdle(plan, targets);
    case Then(before, event, now) =>
      AllowanceTold(plan, before);
      MarksOutstanding(plan, before);
      Stepped(plan, r);
      var b := At(plan, before);
      if !IsTerminal(b.state) {
        Decided(plan, r);
        DecideSpends(plan, b.state, event, now, b.timers, b.ctx);
      }
  }

  /**
    A mark that the device refuses is tried again, after a new read, exactly if a lost answer would
    explain the refusal and no mark has been refused like that since the last one answered, or since
    the start. Otherwise the refusal ends the update.
   */
  lemma RetriedExactly(plan: Plan, r: Run)
    requires r.Then? && Disciplined(plan, r) && Outstanding(plan, r.before).MarkForTest? && r.event.Failure?
    ensures if Recoverable(r.event.error) && !RefusedSinceMark(plan, r.before) then At(plan, r).state.InspectingImages?
            else At(plan, r).state.Failed? && At(plan, r).ctx.verdict.cause == Some(r.event.error)
  {
    hide At, LastStep, Decide, Outstanding, Recoverable;
    AllowanceTold(plan, r.before);
    MarksOutstanding(plan, r.before);
    var b := At(plan, r.before);
    Decided(plan, r);
    DecideSpends(plan, b.state, r.event, r.now, b.timers, b.ctx);
  }
}
