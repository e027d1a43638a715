/** Who lets an update be confirmed: the plan, or the application, which is asked once at most. */
module UpdateApproval {
  import opened Common
  import opened UpdateTypes
  import opened UpdateMachine
  import opened UpdateInvariant
  import opened UpdateSteps
  import opened UpdateRuns
  import opened UpdateTheorems
  import opened UpdateRecovery
  import opened UpdateRecord

  /** Whoever has to has agreed to a confirm; the question is put only if it is open. */
  predicate Sanctioned(plan: Plan, o: Outcome) {
    && (o.next.Confirming? ==> plan.mode == ConfirmImmediately || o.ctx.spent.confirmApproved)
    && (o.next.AwaitingConfirmation? ==> plan.mode != ConfirmImmediately && !o.ctx.spent.confirmApproved)
  }

  lemma AwaitDeviceSanctioned(plan: Plan, c: Context)
    ensures Sanctioned(plan, AwaitDevice(plan, c))
  {
    hide Reports, ObservedBelow, FirstFailed, AwaitCommit, NextInTrial;
    AwaitCommitEntitled(c.(targets := ObservedBelow(Table(c), c.targets, FirstFailed(Table(c), c.targets, 0))));
  }

  lemma InspectBootSanctioned(plan: Plan, c: Context)
    ensures Sanctioned(plan, InspectBoot(plan, c))
  {
    hide AwaitDevice, NotRun, NoActiveSlot, Judged;
    AwaitDeviceSanctioned(plan, Judged(c));
  }

  lemma StagedSanctioned(plan: Plan, c: Context)
    ensures Sanctioned(plan, Staged(plan, c))
  {
    hide InspectBoot, RefusalFor;
    InspectBootSanctioned(plan, c);
  }

  lemma NextTargetSanctioned(plan: Plan, c: Context)
    ensures Sanctioned(plan, NextTarget(plan, c))
  {
    hide Staged;
    StagedSanctioned(plan, c.(current := c.current + 1, spent := c.spent.(markRetried := false)));
  }

  lemma MarkOrSkipSanctioned(plan: Plan, c: Context)
    ensures Sanctioned(plan, MarkOrSkip(plan, c))
  {
    hide NextTarget;
    NextTargetSanctioned(plan, c.(swapScheduled := true));
  }

  lemma PlanMarkSanctioned(plan: Plan, c: Context, slot: nat)
    requires c.current < |c.targets|
    ensures Sanctioned(plan, PlanMark(plan, c, slot))
  {
    hide RefusalFor, MarkOrSkip;
    var entry := c.targets[c.current].report.(uploadSkipped := true);
    var checked := CheckPreconditions(plan, WithReport(c, c.current, entry));
    if checked.Ok? {
      var noted := WithReport(c, c.current, entry.(uploadSlot := Some(slot)));
      MarkOrSkipSanctioned(plan, checked.value.(targets := noted.targets));
    }
  }

  lemma {:induction false} PlanFromSanctioned(plan: Plan, c: Context)
    ensures Sanctioned(plan, PlanFrom(plan, c))
    decreases |c.targets| - c.current
  {
    hide Staged, ChooseBuild, PlanMark, NeedOf, RefusalFor;
    if c.current >= |c.targets| {
      StagedSanctioned(plan, c);
    } else {
      ChooseBuildFramed(c);
      if ChooseBuild(c).Ok? {
        var d := ChooseBuild(c).value;
        var need := NeedOf(plan, Table(d), d.targets[d.current].target, d.targets[d.current].report);
        match need
        case Skip(_, _) => PlanFromSanctioned(plan, SkipCurrent(d, need));
        case Mark(slot) => PlanMarkSanctioned(plan, d, slot);
        case Upload =>
      }
    }
  }

  lemma PlanFromStateSanctioned(plan: Plan, c: Context)
    ensures Sanctioned(plan, PlanFromState(plan, c))
  {
    hide PlanFrom, InspectBoot, AfterReset;
    PlanFromSanctioned(plan, c);
    InspectBootSanctioned(plan, c.(targets := SkipAll(c.targets)));
  }

  lemma StagingSanctioned(plan: Plan, state: UpdateState, event: Event, c: Context)
    requires Decidable(state, event, c)
    ensures Sanctioned(plan, DecideStaging(plan, state, event, c))
  {
    hide PlanFromState, NextTarget, MarkOrSkip, Recoverable;
    PlanFromStateSanctioned(plan, c);
    if state.Uploading? && event.UploadFinished? {
      var entry := c.targets[c.current].report;
      var skipped := entry.uploadSkipped || event.alreadyPresent;
      var done := entry.(bytesTransferred := event.transferred, uploadSkipped := skipped);
      NextTargetSanctioned(plan, WithReport(c.(uploadInProgress := false), c.current, done));
    } else if state.VerifyingUpload? && event.StateRead? {
      var d := c.(device := event.table);
      var holder := Holder(Table(d), d.targets[d.current].target);
      if holder < |Table(d)| {
        var entry := d.targets[d.current].report.(uploadSlot := Some(Table(d)[holder].slot));
        MarkOrSkipSanctioned(plan, WithReport(d, d.current, entry));
      }
    } else if state.MarkingForTest? && event.MarkedForTest? {
      NextTargetSanctioned(plan, c.(device := event.table, swapScheduled := true));
    }
  }

  lemma BootedSanctioned(plan: Plan, state: UpdateState, event: Event, c: Context)
    requires Decidable(state, event, c) && Sanctioned(plan, Outcome(c, state, Nothing))
    ensures Sanctioned(plan, DecideBooted(plan, state, event, c))
  {
    hide InspectBoot, AwaitDevice, AwaitCommit, AllClientsKept, NextInTrial;
    var d := c.(device := if CarriesTable(event) then event.table else c.device);
    InspectBootSanctioned(plan, d);
    AwaitDeviceSanctioned(plan, d);
    AwaitCommitEntitled(d);
  }

  lemma DecideSanctioned(plan: Plan, state: UpdateState, event: Event, now: int, timers: Timers, c: Context)
    requires Decidable(state, event, c) && !IsTerminal(state) && Sanctioned(plan, Outcome(c, state, Nothing))
    ensures Sanctioned(plan, Decide(plan, state, event, now, timers, c))
  {
    hide DecideStaging, DecideBooted;
    StagingSanctioned(plan, state, event, c);
    BootedSanctioned(plan, state, event, c);
  }

  lemma {:induction false} AlwaysSanctioned(plan: Plan, r: Run)
    requires Disciplined(plan, r)
    ensures Sanctioned(plan, Outcome(At(plan, r).ctx, At(plan, r).state, Nothing))
  {
    hide At, LastStep, Good, Transition, Decide, Decidable;
    match r
    case Begin(targets) => BeginsIdle(plan, targets);
    case Then(before, event, now) =>
      AlwaysSanctioned(plan, before);
      var b := At(plan, before);
      if IsTerminal(b.state) {
        Stepped(plan, r);
      } else {
        Decided(plan, r);
        DecideSanctioned(plan, b.state, event, now, b.timers, b.ctx);
      }
  }

  /** A confirm is sent only if the plan wants it at once or the application has approved. */
  lemma {:induction false} ConfirmedOnlyIfWanted(plan: Plan, r: Run)
    requires Disciplined(plan, r) && Emissions(plan, r, Confirm) > 0
    ensures plan.mode == ConfirmImmediately || Approved(plan, r)
  {
    hide At, LastStep, Good, Transition;
    if r.Begin? {
    } else if LastStep(plan, r).effect == Confirm {
      Stepped(plan, r);
      AlwaysSanctioned(plan, r);
      ToldByEvents(plan, r);
    } else {
      ConfirmedOnlyIfWanted(plan, r.before);
    }
  }

  /** Leaving the question means that it was answered, or that the update has ended. */
  lemma QuestionAnswered(plan: Plan, r: Run)
    requires Disciplined(plan, r) && r.Then? && At(plan, r.before).state.AwaitingConfirmation?
    ensures !LastStep(plan, r).effect.RequestConfirmation?
    ensures At(plan, r).state.AwaitingConfirmation? || IsTerminal(At(plan, r).state) || Approved(plan, r)
  {
    hide At, LastStep, Disciplined, DecideQuery, DecideStaging;
    Decided(plan, r);
  }

  /** The application is asked at most once, and never if the plan wants the confirm at once. */
  lemma {:induction false} AskedOnce(plan: Plan, r: Run)
    requires Disciplined(plan, r)
    ensures Emissions(plan, r, RequestConfirmation) <= 1
    ensures plan.mode == ConfirmImmediately ==> Emissions(plan, r, RequestConfirmation) == 0
    ensures Emissions(plan, r, RequestConfirmation) == 1 ==>
              At(plan, r).state.AwaitingConfirmation? || IsTerminal(At(plan, r).state) || Approved(plan, r)
  {
    hide At, LastStep, Good, Transition;
    if r.Begin? {
    } else {
      AskedOnce(plan, r.before);
      Stepped(plan, r);
      if At(plan, r.before).state.AwaitingConfirmation? {
        QuestionAnswered(plan, r);
      }
      if LastStep(plan, r).effect.RequestConfirmation? {
        AlwaysSanctioned(plan, r);
        ToldByEvents(plan, r);
      }
    }
  }
}
