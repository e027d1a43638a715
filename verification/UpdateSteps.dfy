/**
  What one decision of the update machine can and cannot do: the facts about single steps that the
  theorems about whole runs are made of.
 */
module UpdateSteps {
  import opened Common
  import opened UpdateTypes
  import opened UpdateMachine
  import opened UpdateInvariant

  predicate Early(state: UpdateState) {
    state.Idle? || state.QueryingParameters? || state.QueryingBootloader?
  }

  // --- What a decision leaves alone --------------------------------------------------------------

  predicate SameTargets(c: Context, d: Context) {
    && |d.targets| == |c.targets|
    && forall k :: 0 <= k < |c.targets| ==> d.targets[k].target == c.targets[k].target
  }

  /** No target comes as a pair of builds. */
  predicate NoBuilds(c: Context) {
    forall k :: 0 <= k < |c.targets| ==> c.targets[k].target.builds.None?
  }

  /** Same mode and table; the forced reset is not spent, and a refusal needs checks not made before. */
  predicate LooselyFramed(c: Context, d: Context) {
    && d.mode == c.mode && d.device == c.device && |d.targets| == |c.targets| && d.noDowngrade == c.noDowngrade
    && d.spent.resetForced == c.spent.resetForced
    && (c.spent.preconditionsChecked ==> d.spent.preconditionsChecked)
    && (d.verdict.refusal.Some? ==> c.verdict.refusal.Some? || !c.spent.preconditionsChecked)
  }

  /** ... and the same targets: only planning settles which of two builds a target is about. */
  predicate Framed(c: Context, d: Context) {
    LooselyFramed(c, d) && SameTargets(c, d)
  }

  lemma AwaitCommitFramed(c: Context)
    ensures Framed(c, AwaitCommit(c).ctx)
  {
    hide Lost, Reports, Table, ObservedBelow;
    ObservedKeepsTrials(Table(c), c.targets, FirstLost(Table(c), c.targets, 0));
  }

  lemma AwaitDeviceFramed(plan: Plan, c: Context)
    ensures Framed(c, AwaitDevice(plan, c).ctx)
  {
    hide AwaitCommit, Reports, Table, ObservedBelow;
    var d := c.(targets := ObservedBelow(Table(c), c.targets, FirstFailed(Table(c), c.targets, 0)));
    ObservedKeepsTrials(Table(c), c.targets, FirstFailed(Table(c), c.targets, 0));
    AwaitCommitFramed(d);
  }

  lemma JudgedFramed(c: Context)
    ensures Framed(c, Judged(c))
  {
    hide NotRun, NoActiveSlot, NotBooted, Reverted, OwedConfirm, Table, NextInTrial;
  }

  lemma InspectBootFramed(plan: Plan, c: Context)
    ensures Framed(c, InspectBoot(plan, c).ctx)
  {
    hide AwaitDevice, NotRun, NoActiveSlot, Judged, Table;
    JudgedFramed(c);
    AwaitDeviceFramed(plan, Judged(c));
  }

  lemma StagedFramed(plan: Plan, c: Context)
    ensures Framed(c, Staged(plan, c).ctx)
  {
    hide InspectBoot, RefusalFor;
    InspectBootFramed(plan, c);
  }

  lemma NextTargetFramed(plan: Plan, c: Context)
    ensures Framed(c, NextTarget(plan, c).ctx)
  {
    hide Staged;
    StagedFramed(plan, c.(current := c.current + 1, spent := c.spent.(markRetried := false)));
  }

  lemma MarkOrSkipFramed(plan: Plan, c: Context)
    ensures Framed(c, MarkOrSkip(plan, c).ctx)
  {
    hide NextTarget;
    NextTargetFramed(plan, c.(swapScheduled := true));
  }

  lemma PlanUploadFramed(plan: Plan, c: Context)
    ensures Framed(c, PlanUpload(plan, c).ctx)
  {
    hide RefusalFor;
  }

  lemma PlanMarkFramed(plan: Plan, c: Context, slot: nat)
    requires c.current < |c.targets|
    ensures Framed(c, PlanMark(plan, c, slot).ctx)
  {
    hide RefusalFor, MarkOrSkip;
    var entry := c.targets[c.current].report.(uploadSkipped := true);
    var checked := CheckPreconditions(plan, WithReport(c, c.current, entry));
    if checked.Ok? {
      MarkOrSkipFramed(plan, checked.value.(targets := WithReport(c, c.current,
                                                                  entry.(uploadSlot := Some(slot))).targets));
    }
  }

  lemma ChooseBuildFramed(c: Context)
    requires c.current < |c.targets|
    ensures match ChooseBuild(c)
            case Ok(d) => LooselyFramed(c, d) && d.current == c.current && d.spent == c.spent
                && d.verdict == c.verdict && (NoBuilds(c) ==> d == c)
            case Err(o) => LooselyFramed(c, o.ctx) && o.next.Failed? && o.effect.Finish? && !NoBuilds(c)
  {
    hide ChosenBuild;
  }

  lemma {:induction false} PlanFromFramed(plan: Plan, c: Context)
    ensures LooselyFramed(c, PlanFrom(plan, c).ctx)
    ensures NoBuilds(c) ==> SameTargets(c, PlanFrom(plan, c).ctx)
    decreases |c.targets| - c.current
  {
    hide Staged, ChooseBuild, PlanMark, PlanUpload, NeedOf;
    if c.current >= |c.targets| {
      StagedFramed(plan, c);
    } else {
      ChooseBuildFramed(c);
      if ChooseBuild(c).Ok? {
        var d := ChooseBuild(c).value;
        var need := NeedOf(plan, Table(d), d.targets[d.current].target, d.targets[d.current].report);
        match need
        case Skip(_, _) => PlanFromFramed(plan, SkipCurrent(d, need));
        case Mark(slot) => PlanMarkFramed(plan, d, slot);
        case Upload => PlanUploadFramed(plan, d);
      }
    }
  }

  lemma PlanFromStateFramed(plan: Plan, c: Context)
    ensures LooselyFramed(c, PlanFromState(plan, c).ctx)
    ensures NoBuilds(c) ==> SameTargets(c, PlanFromState(plan, c).ctx)
  {
    hide PlanFrom, InspectBoot, AfterReset;
    PlanFromFramed(plan, c);
    InspectBootFramed(plan, c.(targets := SkipAll(c.targets)));
  }

  // --- What a judged table entitles the machine to -----------------------------------------------

  /** The update asks for the confirmation, or sends it. */
  predicate AtConfirm(state: UpdateState) {
    state.AwaitingConfirmation? || state.Confirming?
  }

  /** Nothing is owed to the `Client` images any more; the machine waits for the device, or is done. */
  predicate Settled(state: UpdateState, c: Context) {
    state.AwaitingDeviceCommit? || (state.AwaitingDeviceApply? && !c.swapScheduled) || state.Completed?
  }

  predicate TrialsRun(t: SlotTable, targets: seq<Image>) {
    forall k :: 0 <= k < |targets| && targets[k].inTrial ==> RunningOnTrial(t, targets[k].target)
  }

  predicate SameTrials(c: Context, d: Context) {
    |d.targets| == |c.targets| && forall k :: 0 <= k < |c.targets| ==> d.targets[k].inTrial == c.targets[k].inTrial
  }

  /** Where judging a table can lead, and what it can ask for. */
  predicate Judging(o: Outcome) {
    && (IsTerminal(o.next) || AtConfirm(o.next) || Waiting(o.next))
    && !o.effect.Continue? && !o.effect.Reset? && !o.effect.ForceReset?
  }

  /** What the table in force shows, given where the machine went on it. */
  ghost predicate Entitled(plan: Plan, o: Outcome) {
    var t := Table(o.ctx);
    && (!IsTerminal(o.next) ==> TrialsRun(t, o.ctx.targets))
    && (AtConfirm(o.next) ==> AllDevicesRun(t, o.ctx.targets))
    && (Settled(o.next, o.ctx) && !plan.mode.UploadOnly? ==> WithoutSetState(o.ctx) || AllClientsKept(t, o.ctx.targets))
    && (o.next.Completed? && !plan.mode.UploadOnly? ==> AllDevicesKept(t, o.ctx.targets))
  }

  lemma AwaitCommitEntitled(c: Context)
    ensures var o := AwaitCommit(c);
            && SameTrials(c, o.ctx)
            && Judging(o) && !AtConfirm(o.next) && !o.next.AwaitingDeviceApply?
            && (o.next.Completed? ==> AllDevicesKept(Table(c), c.targets))
  {
    var t := Table(c);
    hide Table, Runs, Holder;
    if AwaitCommit(c).next.Completed? {
      forall i | 0 <= i < |c.targets| && c.targets[i].target.commit.Device?
        ensures Keeps(t, c.targets[i].target)
      {
        assert !Lost(t, c.targets[i]) && !Reports(t, c.targets[i], OnTrial);
      }
    }
  }

  /** Neither failed nor still applying: then it runs. */
  lemma DevicesRunning(t: SlotTable, targets: seq<Image>)
    requires forall k :: 0 <= k < |targets| ==>
             !Reports(t, targets[k], ApplyFailed) && !Reports(t, targets[k], Applying)
    ensures AllDevicesRun(t, targets)
  {
    hide Runs, Holder;
    forall i | 0 <= i < |targets| && targets[i].target.commit.Device?
      ensures Runs(t, targets[i].target)
    {
      assert !Reports(t, targets[i], ApplyFailed) && !Reports(t, targets[i], Applying);
    }
  }

  lemma AwaitDeviceEntitled(plan: Plan, c: Context)
    ensures var o := AwaitDevice(plan, c);
            && SameTrials(c, o.ctx)
            && (AtConfirm(o.next) ==> AllDevicesRun(Table(c), c.targets))
            && (Settled(o.next, o.ctx) ==> !c.swapScheduled)
            && (o.next.Completed? ==> AllDevicesKept(Table(c), c.targets))
            && Judging(o)
  {
    hide Runs, Holder, AwaitCommit, Reports, ObservedBelow, AllDevicesRun, Keeps;
    var t := Table(c);
    var failed := FirstFailed(t, c.targets, 0);
    var d := c.(targets := ObservedBelow(t, c.targets, failed));
    ObservedKeepsTrials(t, c.targets, failed);
    AwaitCommitEntitled(d);
    if AtConfirm(AwaitDevice(plan, c).next) {
      DevicesRunning(t, c.targets);
    }
  }

  /**
    What the boot inspection marks on trial runs unconfirmed; if it schedules nothing, every `Client` image is
    kept.
   */
  lemma JudgedEntitled(c: Context)
    requires !exists k :: 0 <= k < |c.targets| && NotRun(Table(c), c.targets[k])
    ensures var d := Judged(c);
            && TrialsRun(Table(c), d.targets)
            && (!d.swapScheduled ==> WithoutSetState(c) || AllClientsKept(Table(c), c.targets))
  {
    hide Runs, AnythingPending, Table;
    var t := Table(c);
    var d := Judged(c);
    if !d.swapScheduled && !WithoutSetState(c) {
      forall i | 0 <= i < |c.targets| && c.targets[i].target.commit.Client?
        ensures Keeps(t, c.targets[i].target)
      {
        assert !NotRun(t, c.targets[i]) && !d.targets[i].inTrial;
      }
    }
  }

  lemma InspectBootEntitled(plan: Plan, c: Context)
    ensures var o := InspectBoot(plan, c);
            Entitled(plan, o) && Judging(o)
  {
    hide AwaitDevice, NotRun, NoActiveSlot, Judged, Keeps, Runs, RunningOnTrial;
    var o := InspectBoot(plan, c);
    if exists k :: 0 <= k < |c.targets| && (NoActiveSlot(Table(c), c.targets[k]) || NotRun(Table(c), c.targets[k])) {
      assert o.next.Failed? && o.effect.Finish?;
    } else {
      var d := Judged(c);
      JudgedFramed(c);
      JudgedEntitled(c);
      AwaitDeviceFramed(plan, d);
      AwaitDeviceEntitled(plan, d);
    }
  }

  // --- What staging leads to ---------------------------------------------------------------------

  /**
    Staging works through the targets in order: it never turns back, hands over to the next planning
    step only with a later target, and keeps the current target's spent recovery spent.
   */
  ghost predicate Onwards(plan: Plan, c: Context, o: Outcome) {
    && Entitled(plan, o)
    && (o.effect.Continue? ==> o.ctx.current > c.current)
    && (PreBoot(o.next, o.ctx) ==>
        o.ctx.current >= c.current && (o.ctx.current == c.current && c.spent.markRetried ==> o.ctx.spent.markRetried))
    && !o.effect.ForceReset? && !o.next.InspectingImages? && !Early(o.next)
  }

  /** A step that marks nothing on trial and neither asks to confirm nor completes is entitled to everything. */
  lemma StillEntitled(plan: Plan, o: Outcome)
    requires !SomeInTrial(o.ctx) && !AtConfirm(o.next) && !Settled(o.next, o.ctx)
    ensures Entitled(plan, o)
  {
  }

  lemma StagedOnwards(plan: Plan, c: Context)
    requires !SomeInTrial(c)
    ensures Onwards(plan, c, Staged(plan, c))
  {
    hide InspectBoot, RefusalFor, SomeInTrial, TrialsRun, AllDevicesRun, AllDevicesKept, AllClientsKept;
    var o := Staged(plan, c);
    if !plan.mode.UploadOnly? && !c.swapScheduled {
      InspectBootEntitled(plan, c);
    } else {
      CheckedTargets(plan, c);
      NoTrialsRun(c);
    }
  }

  lemma CheckedTargets(plan: Plan, c: Context)
    ensures match CheckPreconditions(plan, c)
            case Ok(d) => d == c.(spent := c.spent.(preconditionsChecked := true))
            case Err(o) => o.next.Failed? && o.effect.Finish?
  {
    hide RefusalFor;
  }

  lemma NoTrialsRun(c: Context)
    requires !SomeInTrial(c)
    ensures forall t :: TrialsRun(t, c.targets)
  {
  }

  lemma NextTargetOnwards(plan: Plan, c: Context)
    requires !SomeInTrial(c)
    ensures Onwards(plan, c, NextTarget(plan, c))
  {
    hide Staged;
    var next := c.(current := c.current + 1, spent := c.spent.(markRetried := false));
    StagedOnwards(plan, next);
  }

  lemma MarkOrSkipOnwards(plan: Plan, c: Context)
    requires !SomeInTrial(c)
    ensures Onwards(plan, c, MarkOrSkip(plan, c))
  {
    hide NextTarget;
    NextTargetOnwards(plan, c.(swapScheduled := true));
  }

  lemma PlanMarkOnwards(plan: Plan, c: Context, slot: nat)
    requires !SomeInTrial(c) && c.current < |c.targets|
    ensures Onwards(plan, c, PlanMark(plan, c, slot))
  {
    hide MarkOrSkip, RefusalFor;
    var entry := c.targets[c.current].report.(uploadSkipped := true);
    var checked := CheckPreconditions(plan, WithReport(c, c.current, entry));
    if checked.Ok? {
      var d := checked.value.(targets := WithReport(c, c.current, entry.(uploadSlot := Some(slot))).targets);
      FirstInTrial(d.targets, 0, |d.targets|);
      MarkOrSkipOnwards(plan, d);
    }
  }

  lemma PlanUploadOnwards(plan: Plan, c: Context)
    requires !SomeInTrial(c)
    ensures Onwards(plan, c, PlanUpload(plan, c))
  {
    hide RefusalFor;
    CheckedTargets(plan, c);
  }

  lemma SkipCurrentTrials(c: Context, need: Need)
    requires !SomeInTrial(c) && need.Skip? && c.current < |c.targets|
    ensures !SomeInTrial(SkipCurrent(c, need))
  {
    FirstInTrial(SkipCurrent(c, need).targets, 0, |c.targets|);
  }

  lemma ChooseBuildTrials(c: Context)
    requires !SomeInTrial(c) && c.current < |c.targets|
    ensures ChooseBuild(c).Ok? ==> !SomeInTrial(ChooseBuild(c).value)
  {
    hide ChosenBuild;
    if ChooseBuild(c).Ok? {
      FirstInTrial(ChooseBuild(c).value.targets, 0, |c.targets|);
    }
  }

  lemma {:induction false} PlanFromOnwards(plan: Plan, c: Context)
    requires !SomeInTrial(c)
    ensures Onwards(plan, c, PlanFrom(plan, c))
    decreases |c.targets| - c.current
  {
    hide Staged, ChooseBuild, PlanMark, PlanUpload, NeedOf, Entitled;
    if c.current >= |c.targets| {
      StagedOnwards(plan, c);
    } else {
      ChooseBuildFramed(c);
      ChooseBuildTrials(c);
      if ChooseBuild(c).Ok? {
        var d := ChooseBuild(c).value;
        var need := NeedOf(plan, Table(d), d.targets[d.current].target, d.targets[d.current].report);
        match need
        case Skip(_, _) =>
          SkipCurrentTrials(d, need);
          PlanFromOnwards(plan, SkipCurrent(d, need));
        case Mark(slot) => PlanMarkOnwards(plan, d, slot);
        case Upload => PlanUploadOnwards(plan, d);
      } else {
        FailEntitled(plan, ChooseBuild(c).error);
      }
    }
  }

  lemma FailEntitled(plan: Plan, o: Outcome)
    requires o.next.Failed?
    ensures Entitled(plan, o)
  {
  }

  lemma PlanFromStateOnwards(plan: Plan, c: Context)
    requires !SomeInTrial(c)
    ensures Onwards(plan, c, PlanFromState(plan, c))
  {
    hide PlanFrom, InspectBoot, AfterReset;
    PlanFromOnwards(plan, c);
    InspectBootEntitled(plan, c.(targets := SkipAll(c.targets)));
  }

  // --- One decision, in three parts --------------------------------------------------------------

  /** What the decision leaves alone. */
  predicate Frame(state: UpdateState, event: Event, c: Context, o: Outcome) {
    && o.ctx.device == (if CarriesTable(event) then event.table else c.device)
    && |o.ctx.targets| == |c.targets| && (!state.Planning? || NoBuilds(c) ==> SameTargets(c, o.ctx))
    && (!Early(state) ==> !Early(o.next) && o.ctx.mode == c.mode)
    && (c.spent.preconditionsChecked ==> o.ctx.spent.preconditionsChecked)
    && (if o.effect.ForceReset? then !c.spent.resetForced && o.ctx.spent.resetForced
        else o.ctx.spent.resetForced == c.spent.resetForced)
    && (o.ctx.verdict.refusal.Some? ==> PreBoot(state, c) && !c.spent.preconditionsChecked)
  }

  /** A reset has been sent and no table has been judged since. */
  predicate Unjudged(state: UpdateState, c: Context) {
    && c.swapScheduled
    && (state.Resetting? || state.AwaitingDisconnect? || (state.AwaitingReconnect? && !c.uploadInProgress)
        || state.VerifyingBooted?)
  }

  predicate Judges(state: UpdateState, event: Event) {
    state.VerifyingBooted? && event.StateRead?
  }

  /** Before the first table is in, or given up. */
  predicate Blind(state: UpdateState) {
    Early(state) || state.InspectingImages? || state.Failed? || state.Cancelled?
  }

  /** Where the update can go. */
  predicate Course(state: UpdateState, event: Event, c: Context, o: Outcome) {
    && (Blind(state) ==> Blind(o.next) || CarriesTable(event))
    && (!PreBoot(state, c) ==> !PreBoot(o.next, o.ctx) && !o.effect.Reset?)
    && (PreBoot(state, c) && PreBoot(o.next, o.ctx) ==>
        o.ctx.current >= c.current && (o.ctx.current == c.current && c.spent.markRetried ==> o.ctx.spent.markRetried))
    && (state.Planning? && o.effect.Continue? ==> o.ctx.current > c.current)
    && (state.MarkingForTest? && o.next.InspectingImages? ==>
        !c.spent.markRetried && o.ctx.spent.markRetried && o.ctx.current == c.current)
    && (Unjudged(state, c) && !Judges(state, event) ==>
        Unjudged(o.next, o.ctx) || ((o.next.Failed? || o.next.Cancelled?) && o.ctx.verdict.revertPending))
  }

  /** Planning and the check after a boot are left only on a table judged for what the device runs. */
  predicate Inspects(state: UpdateState, next: UpdateState) {
    (state.Planning? && !next.Planning?) || (state.VerifyingBooted? && !next.VerifyingBooted?)
  }

  /** What the last table shows of the images, given where the update goes on it. */
  predicate Grounds(plan: Plan, state: UpdateState, c: Context, o: Outcome) {
    var t := Table(o.ctx);
    && (!IsTerminal(o.next) ==>
        if Inspects(state, o.next) then TrialsRun(t, o.ctx.targets)
        else |o.ctx.targets| == |c.targets| && forall k :: 0 <= k < |c.targets| && o.ctx.targets[k].inTrial ==>
            c.targets[k].inTrial)
    && (AtConfirm(o.next) ==>
        || AtConfirm(state)
        || ((state.Planning? || state.VerifyingBooted? || state.AwaitingDeviceApply?)
            && AllDevicesRun(t, o.ctx.targets)))
    && (Settled(o.next, o.ctx) && !plan.mode.UploadOnly? ==>
        Settled(state, c) || WithoutSetState(o.ctx) || AllClientsKept(t, o.ctx.targets))
    && (o.next.Completed? && !plan.mode.UploadOnly? ==> AllDevicesKept(t, o.ctx.targets))
  }

  predicate Transition(plan: Plan, state: UpdateState, event: Event, c: Context, o: Outcome) {
    Frame(state, event, c, o) && Course(state, event, c, o) && Grounds(plan, state, c, o)
  }

  /** A step that changes at most the verdict, and emits no reset, moves along its course and has its grounds. */
  lemma VerdictOnly(plan: Plan, state: UpdateState, event: Event, c: Context, o: Outcome)
    requires !CarriesTable(event) && Undecided(c) && (!Early(state) ==> !Early(o.next))
    requires o.ctx.targets == c.targets && o.ctx.spent == c.spent && o.ctx.mode == c.mode && o.ctx.device == c.device
    requires o.ctx.verdict.refusal.None? && !o.effect.ForceReset?
    ensures Frame(state, event, c, o)
  {
  }

  lemma EndGrounds(plan: Plan, state: UpdateState, event: Event, c: Context, o: Outcome)
    requires o.next.Failed? || o.next.Cancelled?
    ensures Grounds(plan, state, c, o)
  {
    hide AllDevicesRun, AllClientsKept, AllDevicesKept, TrialsRun, Table;
  }

  /** Nothing changes at all. */
  lemma StayTransition(plan: Plan, state: UpdateState, event: Event, c: Context, effect: Effect)
    requires !IsTerminal(state) && Undecided(c) && !CarriesTable(event)
    requires effect.Nothing? || effect.ReadState? || effect.AwaitApply?
    ensures Transition(plan, state, event, c, Outcome(c, state, effect))
  {
    hide AllDevicesRun, AllClientsKept, AllDevicesKept, TrialsRun, Table, Frame;
    VerdictOnly(plan, state, event, c, Outcome(c, state, effect));
  }

  /** The update ends, and the verdict says whether a revert is pending. */
  lemma EndTransition(plan: Plan, state: UpdateState, event: Event, c: Context, next: UpdateState, verdict: Verdict)
    requires !IsTerminal(state) && Undecided(c) && !CarriesTable(event)
    requires (next.Failed? || next.Cancelled?) && verdict.refusal.None? && verdict.revertPending == c.swapScheduled
    ensures Transition(plan, state, event, c, Outcome(c.(verdict := verdict), next, Finish))
  {
    hide Frame, Grounds;
    VerdictOnly(plan, state, event, c, Outcome(c.(verdict := verdict), next, Finish));
    EndGrounds(plan, state, event, c, Outcome(c.(verdict := verdict), next, Finish));
  }

  lemma FailTransition(plan: Plan, state: UpdateState, event: Event, c: Context, error: Error)
    requires !IsTerminal(state) && Undecided(c) && !CarriesTable(event)
    ensures Transition(plan, state, event, c, Fail(c, error))
  {
    hide Transition;
    EndTransition(plan, state, event, c, Failed, c.verdict.(cause := Some(error), revertPending := c.swapScheduled));
  }

  /** The link comes and goes. */
  lemma LinkTransition(plan: Plan, state: UpdateState, event: Event, c: Context, o: Outcome)
    requires Undecided(c) && !CarriesTable(event) && o.ctx == c
             && (c.uploadInProgress ==> state.Uploading? || state.AwaitingReconnect?)
    requires !o.effect.ForceReset? && !o.effect.Reset? && !o.effect.Continue?
    requires || (state.Uploading? && o.next.AwaitingReconnect?)
             || (state.Resetting? && o.next.AwaitingDisconnect?)
             || (state.AwaitingDisconnect? && o.next.AwaitingReconnect?)
             || (Waiting(state) && o.next.AwaitingReconnect?)
             || (state.AwaitingReconnect? && if c.uploadInProgress then o.next.Uploading? else o.next.VerifyingBooted?)
    ensures Transition(plan, state, event, c, o)
  {
    hide AllDevicesRun, AllClientsKept, AllDevicesKept, TrialsRun, Table;
  }

  lemma TickTransition(plan: Plan, blamed: bool, state: UpdateState, now: int, timers: Timers, c: Context)
    requires Invariant(plan, blamed, state, c) && !IsTerminal(state)
    ensures Transition(plan, state, Tick, c, OnTick(state, now, timers, c))
  {
    hide Invariant, Transition, Base, Located;
    RunningFacts(plan, blamed, state, c);
    var o := OnTick(state, now, timers, c);
    if o.next.Failed? {
      FailTransition(plan, state, Tick, c, Error(Timeout, None));
    } else if o.effect.RequestReconnect? {
      LinkTransition(plan, state, Tick, c, o);
    } else {
      StayTransition(plan, state, Tick, c, o.effect);
    }
  }

  lemma CancelTransition(plan: Plan, blamed: bool, state: UpdateState, c: Context)
    requires Invariant(plan, blamed, state, c) && !IsTerminal(state)
    ensures Transition(plan, state, Cancel, c, Outcome(WithVerdict(c, c.verdict.(revertPending := c.swapScheduled)),
                                                       Cancelled, Finish))
  {
    hide Invariant, Transition, Base, Located;
    RunningFacts(plan, blamed, state, c);
    EndTransition(plan, state, Cancel, c, Cancelled, c.verdict.(revertPending := c.swapScheduled));
  }

  /** Before anything is staged only the parameters, the mode and the table change. */
  lemma EarlyTransition(plan: Plan, state: UpdateState, event: Event, c: Context, o: Outcome)
    requires state.Idle? || state.QueryingParameters? || state.QueryingBootloader? || state.InspectingImages?
    requires o.next.QueryingParameters? || o.next.QueryingBootloader? || o.next.InspectingImages? || o.next.Planning?
    requires state.InspectingImages? ==> o.next.Planning? && o.ctx.mode == c.mode
    requires o.next.Planning? ==> CarriesTable(event)
    requires o.ctx == c.(bufSize := o.ctx.bufSize, noDowngrade := o.ctx.noDowngrade, device := o.ctx.device,
                         mode := o.ctx.mode)
    requires o.ctx.device == (if CarriesTable(event) then event.table else c.device)
    requires Undecided(c) && !o.effect.ForceReset?
    ensures Transition(plan, state, event, c, o)
  {
    hide AllDevicesRun, AllClientsKept, AllDevicesKept, TrialsRun, Table;
  }

  lemma QueryTransition(plan: Plan, blamed: bool, state: UpdateState, event: Event, c: Context, outstanding: Effect)
    requires state.Idle? || state.QueryingParameters? || state.QueryingBootloader? || state.InspectingImages?
    requires Invariant(plan, blamed, state, c) && Expects(state, outstanding) && Reply(blamed, outstanding, event)
    requires Decidable(state, event, c)
    ensures Transition(plan, state, event, c, DecideQuery(plan, state, event, c))
  {
    hide Invariant, Base, Located, DecideQuery, Transition, Answers, Fail;
    RunningFacts(plan, blamed, state, c);
    QueryShape(plan, state, event, c, outstanding);
    if event.Failure? && DecideQuery(plan, state, event, c) == Fail(c, event.error) {
      FailTransition(plan, state, event, c, event.error);
    } else {
      EarlyTransition(plan, state, event, c, DecideQuery(plan, state, event, c));
    }
  }

  lemma PlanningTransition(plan: Plan, blamed: bool, event: Event, c: Context)
    requires Invariant(plan, blamed, Planning, c) && Reply(blamed, Continue, event) && Decidable(Planning, event, c)
    ensures Transition(plan, Planning, event, c, DecideStaging(plan, Planning, event, c))
  {
    hide Invariant, Base, PlanFromState, AllDevicesRun, AllClientsKept, AllDevicesKept, TrialsRun, Table;
    RunningFacts(plan, blamed, Planning, c);
    PlanFromStateFramed(plan, c);
    PlanFromStateOnwards(plan, c);
    PlanFromStateKept(plan, blamed, c);
    var o := PlanFromState(plan, c);
    if o.next.Planning? {
      RunningFacts(plan, blamed, Planning, o.ctx);
    }
  }

  /** A staging step that moves onwards within the same targets. */
  lemma OnwardsTransition(plan: Plan, state: UpdateState, event: Event, c: Context, d: Context, o: Outcome)
    requires state.Uploading? || state.VerifyingUpload? || state.MarkingForTest?
    requires Undecided(c) && !SomeInTrial(c) && PreBoot(state, c)
    requires d.device == (if CarriesTable(event) then event.table else c.device)
    requires d.spent == c.spent && d.verdict == c.verdict && d.mode == c.mode && d.current == c.current
             && SameTargets(c, d)
    requires Framed(d, o.ctx) && Onwards(plan, d, o)
    requires !SomeInTrial(o.ctx) && !AtConfirm(o.next) && (o.next.Completed? ==> plan.mode.UploadOnly?)
    requires !o.next.AwaitingDeviceCommit? && !o.next.AwaitingDeviceApply?
    ensures Transition(plan, state, event, c, o)
  {
    hide AllDevicesRun, AllClientsKept, AllDevicesKept, Table, Entitled;
  }

  /** Once something is scheduled, staging ends in a reset: it judges no table. */
  lemma NextTargetScheduled(plan: Plan, c: Context)
    requires c.swapScheduled || plan.mode.UploadOnly?
    ensures var o := NextTarget(plan, c);
            && !AtConfirm(o.next) && !Waiting(o.next) && (o.next.Completed? ==> plan.mode.UploadOnly?)
            && o.ctx.targets == c.targets
  {
    hide InspectBoot, RefusalFor;
  }

  lemma UploadingTransition(plan: Plan, blamed: bool, event: Event, c: Context, outstanding: Effect)
    requires Invariant(plan, blamed, Uploading, c) && Expects(Uploading, outstanding)
             && Reply(blamed, outstanding, event)
    requires Decidable(Uploading, event, c)
    ensures Transition(plan, Uploading, event, c, DecideStaging(plan, Uploading, event, c))
  {
    hide Invariant, Base, PlanFromState, AfterUpload, UploadVerified, NextTarget, MarkRefused, ResetRefused, Transition;
    RunningFacts(plan, blamed, Uploading, c);
    if event.Failure? {
      FailTransition(plan, Uploading, event, c, event.error);
    } else if event.UploadFinished? {
      AfterUploadTransition(plan, event, c);
    } else {
      LinkTransition(plan, Uploading, event, c, DecideStaging(plan, Uploading, event, c));
    }
  }

  lemma AfterUploadTransition(plan: Plan, event: Event, c: Context)
    requires event.UploadFinished? && Undecided(c) && !SomeInTrial(c) && c.current < |c.targets|
    ensures Transition(plan, Uploading, event, c, AfterUpload(plan, c, event.transferred, event.alreadyPresent))
  {
    hide NextTarget, Transition, Onwards;
    var entry := c.targets[c.current].report;
    var done := WithReport(c.(uploadInProgress := false), c.current,
                           entry.(bytesTransferred := event.transferred, uploadSkipped := entry.uploadSkipped
                                  || event.alreadyPresent));
    FirstInTrial(done.targets, 0, |done.targets|);
    var o := AfterUpload(plan, c, event.transferred, event.alreadyPresent);
    if plan.mode.UploadOnly? {
      NextTargetFramed(plan, done);
      NextTargetOnwards(plan, done);
      NextTargetScheduled(plan, done);
    } else {
      StillOnwards(plan, done, o);
    }
    OnwardsTransition(plan, Uploading, event, c, done, o);
  }

  lemma StillOnwards(plan: Plan, c: Context, o: Outcome)
    requires o.ctx == c && !SomeInTrial(c) && o.next.VerifyingUpload? && o.effect.ReadState?
    ensures Onwards(plan, c, o)
  {
    StillEntitled(plan, o);
  }

  lemma MarkOrSkipScheduled(plan: Plan, c: Context)
    requires !plan.mode.UploadOnly?
    ensures var o := MarkOrSkip(plan, c);
            && !AtConfirm(o.next) && !Waiting(o.next) && !o.next.Completed? && o.ctx.targets == c.targets
  {
    hide NextTarget;
    NextTargetScheduled(plan, c.(swapScheduled := true));
  }

  lemma VerifyingUploadTransition(plan: Plan, blamed: bool, event: Event, c: Context)
    requires Invariant(plan, blamed, VerifyingUpload, c) && Reply(blamed, ReadState, event)
             && Decidable(VerifyingUpload, event, c)
    ensures Transition(plan, VerifyingUpload, event, c, DecideStaging(plan, VerifyingUpload, event, c))
  {
    hide Invariant, Base, PlanFromState, AfterUpload, UploadVerified, NextTarget, MarkRefused, ResetRefused, Transition;
    RunningFacts(plan, blamed, VerifyingUpload, c);
    if event.Failure? {
      FailTransition(plan, VerifyingUpload, event, c, event.error);
    } else {
      assert !plan.mode.UploadOnly? by { assert WithinPlan(plan, VerifyingUpload,
                                                           c) by { InvariantParts(plan, blamed, VerifyingUpload, c); } }
      UploadVerifiedTransition(plan, event, c);
    }
  }

  lemma InvariantParts(plan: Plan, blamed: bool, state: UpdateState, c: Context)
    requires Invariant(plan, blamed, state, c)
    ensures WithinPlan(plan, state, c) && VerdictFits(blamed, state, c)
  {
  }

  lemma UploadVerifiedTransition(plan: Plan, event: Event, c: Context)
    requires event.StateRead? && Undecided(c) && !SomeInTrial(c) && c.current < |c.targets| && !plan.mode.UploadOnly?
    ensures Transition(plan, VerifyingUpload, event, c, UploadVerified(plan, c.(device := event.table)))
  {
    hide MarkOrSkip, Transition, Onwards;
    var read := c.(device := event.table);
    var t := Table(read);
    var o := UploadVerified(plan, read);
    var holder := Holder(t, c.targets[c.current].target);
    if holder < |t| {
      var d := WithReport(read, read.current, read.targets[read.current].report.(uploadSlot := Some(t[holder].slot)));
      FirstInTrial(d.targets, 0, |d.targets|);
      MarkOrSkipFramed(plan, d);
      MarkOrSkipOnwards(plan, d);
      MarkOrSkipScheduled(plan, d);
      OnwardsTransition(plan, VerifyingUpload, event, c, d, o);
    } else {
      FailedOnwards(plan, read, Error(ImageMismatch, None));
      OnwardsTransition(plan, VerifyingUpload, event, c, read, o);
    }
  }

  lemma FailedOnwards(plan: Plan, c: Context, error: Error)
    ensures Onwards(plan, c, Fail(c, error)) && (Undecided(c) ==> Framed(c, Fail(c, error).ctx))
  {
  }

  lemma MarkingTransition(plan: Plan, blamed: bool, event: Event, c: Context)
    requires Invariant(plan, blamed, MarkingForTest, c) && Reply(blamed, MarkForTest, event)
             && Decidable(MarkingForTest, event, c)
    ensures Transition(plan, MarkingForTest, event, c, DecideStaging(plan, MarkingForTest, event, c))
  {
    hide Invariant, Base, PlanFromState, AfterUpload, UploadVerified, NextTarget, MarkRefused, ResetRefused,
        Transition, Onwards;
    RunningFacts(plan, blamed, MarkingForTest, c);
    if event.Failure? {
      MarkRefusedTransition(plan, event, c);
    } else {
      var d := c.(device := event.table, swapScheduled := true);
      NextTargetFramed(plan, d);
      NextTargetOnwards(plan, d);
      NextTargetScheduled(plan, d);
      OnwardsTransition(plan, MarkingForTest, event, c, d, NextTarget(plan, d));
    }
  }

  lemma MarkRefusedTransition(plan: Plan, event: Event, c: Context)
    requires event.Failure? && Undecided(c) && !SomeInTrial(c)
    ensures Transition(plan, MarkingForTest, event, c, MarkRefused(event.error, c))
  {
    hide AllDevicesRun, AllClientsKept, AllDevicesKept, TrialsRun, Table;
  }

  lemma ResetRefusedTransition(plan: Plan, blamed: bool, event: Event, c: Context)
    requires event.Failure? && Invariant(plan, blamed, Resetting, c)
    ensures Transition(plan, Resetting, event, c, ResetRefused(event.error, c))
  {
    hide Invariant, Base, Transition;
    RunningFacts(plan, blamed, Resetting, c);
    var o := ResetRefused(event.error, c);
    if o.next.Failed? {
      FailTransition(plan, Resetting, event, c, event.error);
    } else if o.next.AwaitingDisconnect? {
      LinkTransition(plan, Resetting, event, c, o);
    } else {
      ForcedTransition(plan, event, c);
    }
  }

  lemma ForcedTransition(plan: Plan, event: Event, c: Context)
    requires !CarriesTable(event) && Undecided(c) && !c.spent.resetForced
    ensures Transition(plan, Resetting, event, c, Outcome(c.(spent := c.spent.(resetForced := true)), Resetting,
                                                          ForceReset))
  {
    hide AllDevicesRun, AllClientsKept, AllDevicesKept, TrialsRun, Table;
  }

  lemma ResettingTransition(plan: Plan, blamed: bool, state: UpdateState, event: Event, c: Context, outstanding: Effect)
    requires state.Resetting? || state.AwaitingDisconnect? || state.AwaitingReconnect?
    requires Invariant(plan, blamed, state, c) && Expects(state, outstanding) && Reply(blamed, outstanding, event)
    requires Decidable(state, event, c)
    ensures Transition(plan, state, event, c, DecideStaging(plan, state, event, c))
  {
    hide Invariant, Base, Located, PlanFromState, AfterUpload, UploadVerified, NextTarget, MarkRefused,
        ResetRefused, Transition;
    RunningFacts(plan, blamed, state, c);
    if event.Failure? {
      ResetRefusedTransition(plan, blamed, event, c);
    } else if event.ReconnectFailed? {
      FailTransition(plan, state, event, c, event.error);
    } else {
      LinkTransition(plan, state, event, c, DecideStaging(plan, state, event, c));
    }
  }

  // --- After the reset ---------------------------------------------------------------------------

  lemma InspectTransition(plan: Plan, event: Event, c: Context)
    requires event.StateRead? && Undecided(c) && !plan.mode.UploadOnly?
    ensures Transition(plan, VerifyingBooted, event, c, InspectBoot(plan, c.(device := event.table)))
  {
    hide InspectBoot, AllDevicesRun, AllClientsKept, AllDevicesKept, TrialsRun, Table;
    var read := c.(device := event.table);
    InspectBootFramed(plan, read);
    InspectBootEntitled(plan, read);
    InspectBootUnrefused(plan, read);
  }

  /** Judging never refuses: the refusal, if any, is an old one. */
  lemma InspectBootUnrefused(plan: Plan, c: Context)
    ensures InspectBoot(plan, c).ctx.verdict.refusal == c.verdict.refusal
  {
    hide AwaitDevice, NotRun, NoActiveSlot, Table, JudgedImage, NotBooted;
    AwaitDeviceUnrefused(plan, Judged(c));
  }

  lemma AwaitDeviceUnrefused(plan: Plan, c: Context)
    ensures AwaitDevice(plan, c).ctx.verdict.refusal == c.verdict.refusal
  {
    hide Table, Reports, Observed;
  }

  lemma ApplyWaitTransition(plan: Plan, event: Event, c: Context)
    requires event.StateRead? && Undecided(c) && !plan.mode.UploadOnly?
    ensures Transition(plan, AwaitingDeviceApply, event, c, AwaitDevice(plan, c.(device := event.table)))
  {
    hide AwaitDevice, AllDevicesRun, AllClientsKept, AllDevicesKept, TrialsRun;
    var read := c.(device := event.table);
    AwaitDeviceFramed(plan, read);
    AwaitDeviceEntitled(plan, read);
    AwaitDeviceUnrefused(plan, read);
    SameTargetsSameTables(read, AwaitDevice(plan, read).ctx, Table(read));
  }

  /** What a table shows depends on the targets alone. */
  lemma SameTargetsSameTables(c: Context, d: Context, t: SlotTable)
    requires SameTargets(c, d)
    ensures AllDevicesRun(t, d.targets) == AllDevicesRun(t, c.targets)
    ensures AllDevicesKept(t, d.targets) == AllDevicesKept(t, c.targets)
    ensures AllClientsKept(t, d.targets) == AllClientsKept(t, c.targets)
  {
    hide Runs, Keeps;
  }

  lemma CommitWaitTransition(plan: Plan, event: Event, c: Context)
    requires event.StateRead? && Undecided(c) && !plan.mode.UploadOnly?
    ensures Transition(plan, AwaitingDeviceCommit, event, c, AwaitCommit(c.(device := event.table)))
  {
    hide AwaitCommit, AllDevicesRun, AllClientsKept, AllDevicesKept, TrialsRun;
    var read := c.(device := event.table);
    AwaitCommitFramed(read);
    AwaitCommitEntitled(read);
    AwaitCommitUnrefused(read);
    SameTargetsSameTables(read, AwaitCommit(read).ctx, Table(read));
  }

  lemma AwaitCommitUnrefused(c: Context)
    ensures AwaitCommit(c).ctx.verdict.refusal == c.verdict.refusal
  {
    hide Table, Reports, Observed, Lost;
  }

  lemma WaitingTransition(plan: Plan, blamed: bool, state: UpdateState, event: Event, c: Context)
    requires state.VerifyingBooted? || state.AwaitingDeviceApply? || state.AwaitingDeviceCommit?
    requires Invariant(plan, blamed, state, c) && Reply(blamed, ReadState, event) && Decidable(state, event, c)
    ensures Transition(plan, state, event, c, DecideBooted(plan, state, event, c))
  {
    hide Invariant, Base, Located, InspectBoot, AwaitDevice, AwaitCommit, ConfirmFailed, ConfirmVerified,
        AfterConfirm, Transition;
    RunningFacts(plan, blamed, state, c);
    if event.StateRead? {
      if state.VerifyingBooted? {
        InspectTransition(plan, event, c);
      } else if state.AwaitingDeviceApply? {
        ApplyWaitTransition(plan, event, c);
      } else {
        CommitWaitTransition(plan, event, c);
      }
    } else if state.VerifyingBooted? {
      FailTransition(plan, state, event, c, event.error);
    } else {
      WaitReadFailedTransition(plan, state, event, c);
    }
  }

  lemma WaitReadFailedTransition(plan: Plan, state: UpdateState, event: Event, c: Context)
    requires event.Failure? && Waiting(state) && Undecided(c) && !c.uploadInProgress
    ensures Transition(plan, state, event, c, WaitReadFailed(state, event.error, c))
  {
    hide Transition;
    var o := WaitReadFailed(state, event.error, c);
    if o.next.Failed? {
      FailTransition(plan, state, event, c, event.error);
    } else if o.next.AwaitingReconnect? {
      LinkTransition(plan, state, event, c, o);
    } else {
      StayTransition(plan, state, event, c, AwaitApply);
    }
  }

  lemma ApprovalTransition(plan: Plan, event: Event, c: Context)
    requires !CarriesTable(event) && Undecided(c)
    ensures Transition(plan, AwaitingConfirmation, event, c,
                       Outcome(c.(spent := c.spent.(confirmApproved := true)), Confirming, Confirm))
  {
    hide AllDevicesRun, AllClientsKept, AllDevicesKept, TrialsRun, Table;
  }

  lemma AfterConfirmTransition(plan: Plan, event: Event, c: Context)
    requires event.Confirmed? && Undecided(c) && c.current < |c.targets|
    ensures Transition(plan, Confirming, event, c, AfterConfirm(c.(device := event.table)))
  {
    hide AllDevicesRun, AllClientsKept, AllDevicesKept, TrialsRun, Table;
  }

  lemma ConfirmFailedTransition(plan: Plan, state: UpdateState, event: Event, c: Context)
    requires (state.Confirming? || state.VerifyingConfirmed?) && event.Failure? && Undecided(c) && !c.uploadInProgress
    ensures Transition(plan, state, event, c, ConfirmFailed(event.error, c))
  {
    hide AllDevicesRun, AllClientsKept, AllDevicesKept, TrialsRun, Table;
  }

  lemma ConfirmVerifiedTransition(plan: Plan, event: Event, c: Context)
    requires event.StateRead? && Undecided(c) && !plan.mode.UploadOnly?
    ensures Transition(plan, VerifyingConfirmed, event, c, ConfirmVerified(c.(device := event.table)))
  {
    hide AwaitCommit, AllDevicesRun, AllClientsKept, AllDevicesKept, TrialsRun;
    var read := c.(device := event.table);
    AwaitCommitFramed(read);
    AwaitCommitEntitled(read);
    AwaitCommitUnrefused(read);
    SameTargetsSameTables(read, AwaitCommit(read).ctx, Table(read));
  }

  lemma ConfirmTransition(plan: Plan, blamed: bool, state: UpdateState, event: Event, c: Context, outstanding: Effect)
    requires state.AwaitingConfirmation? || state.Confirming? || state.VerifyingConfirmed?
    requires Invariant(plan, blamed, state, c) && Expects(state, outstanding) && Reply(blamed, outstanding, event)
    requires Decidable(state, event, c)
    ensures Transition(plan, state, event, c, DecideBooted(plan, state, event, c))
  {
    hide Invariant, Base, Located, InspectBoot, AwaitDevice, AwaitCommit, WaitReadFailed, ConfirmFailed,
        ConfirmVerified, AfterConfirm, Transition;
    RunningFacts(plan, blamed, state, c);
    if event.Failure? {
      ConfirmFailedTransition(plan, state, event, c);
    } else if state.AwaitingConfirmation? {
      ApprovalTransition(plan, event, c);
    } else if state.Confirming? {
      AfterConfirmTransition(plan, event, c);
    } else {
      ConfirmVerifiedTransition(plan, event, c);
    }
  }

  /** Every decision of a disciplined run keeps its frame, its course and its grounds. */
  lemma DecideTransition(plan: Plan, blamed: bool, state: UpdateState, event: Event, now: int, timers: Timers,
                         c: Context, outstanding: Effect)
    requires Invariant(plan, blamed, state, c) && Expects(state, outstanding) && !IsTerminal(state)
    requires Answers(outstanding, event) && (BringsInternal(event) ==> blamed)
    requires Decidable(state, event, c)
    ensures Transition(plan, state, event, c, Decide(plan, state, event, now, timers, c))
  {
    hide Invariant, DecideQuery, DecideStaging, DecideBooted, OnTick, Transition, Decidable;
    if event.Tick? {
      TickTransition(plan, blamed, state, now, timers, c);
    } else if event.Cancel? {
      CancelTransition(plan, blamed, state, c);
    } else {
      if state.Idle? || state.QueryingParameters? || state.QueryingBootloader? || state.InspectingImages? {
        QueryTransition(plan, blamed, state, event, c, outstanding);
      } else if state.Planning? {
        PlanningTransition(plan, blamed, event, c);
      } else if state.Uploading? {
        UploadingTransition(plan, blamed, event, c, outstanding);
      } else if state.VerifyingUpload? {
        VerifyingUploadTransition(plan, blamed, event, c);
      } else if state.MarkingForTest? {
        MarkingTransition(plan, blamed, event, c);
      } else if state.Resetting? || state.AwaitingDisconnect? || state.AwaitingReconnect? {
        ResettingTransition(plan, blamed, state, event, c, outstanding);
      } else if state.VerifyingBooted? || Waiting(state) {
        WaitingTransition(plan, blamed, state, event, c);
      } else {
        ConfirmTransition(plan, blamed, state, event, c, outstanding);
      }
    }
  }
}
