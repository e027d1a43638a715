/**
  Whether the last slot table of a completed update, the one it reports, still shows every `Client`
  image kept: the reads that wait for the device do not look at those images again.
 */
module UpdateFinalTable {
  import opened Common
  import opened UpdateTypes
  import opened UpdateMachine
  import opened UpdateInvariant
  import opened UpdateSteps
  import opened UpdateRuns
  import opened UpdateTheorems
  import opened UpdateRecovery
  import opened UpdateScenarios

  /** The run is about these targets. */
  predicate About(r: Run, targets: seq<Target>) {
    if r.Begin? then r.targets == targets else About(r.before, targets)
  }

  predicate OneFileEach(targets: seq<Target>) {
    forall k :: 0 <= k < |targets| ==> targets[k].builds.None?
  }

  predicate SomeCommittedBy(targets: seq<Target>, who: CommitBy) {
    exists k :: 0 <= k < |targets| && targets[k].commit == who
  }

  /** The machine still has these targets. */
  predicate Pursues(c: Context, targets: seq<Target>) {
    |c.targets| == |targets| && forall k :: 0 <= k < |targets| ==> c.targets[k].target == targets[k]
  }

  lemma {:induction false} TargetsKept(plan: Plan, r: Run, targets: seq<Target>)
    requires Disciplined(plan, r) && About(r, targets) && OneFileEach(targets)
    ensures Pursues(At(plan, r).ctx, targets)
  {
    hide At, LastStep, Good, Course, Grounds;
    match r
    case Begin(_) => BeginsPursuing(plan, targets);
    case Then(before, event, now) =>
      TargetsKept(plan, before, targets);
      Stepped(plan, r);
  }

  lemma BeginsPursuing(plan: Plan, targets: seq<Target>)
    ensures Pursues(At(plan, Begin(targets)).ctx, targets)
  {
  }

  // --- Without a device image nothing waits -------------------------------------------------------

  predicate NoDevices(c: Context) {
    forall k :: 0 <= k < |c.targets| ==> !c.targets[k].target.commit.Device?
  }

  lemma AwaitCommitEnds(c: Context)
    requires NoDevices(c)
    ensures !Waiting(AwaitCommit(c).next)
  {
    hide Runs, Holder;
  }

  lemma AwaitDeviceEnds(plan: Plan, c: Context)
    requires NoDevices(c)
    ensures !Waiting(AwaitDevice(plan, c).next)
  {
    hide Runs, Holder, AwaitCommit, NextInTrial;
    var failed := FirstFailed(Table(c), c.targets, 0);
    var d := c.(targets := ObservedBelow(Table(c), c.targets, failed));
    ObservedKeepsTrials(Table(c), c.targets, failed);
    AwaitCommitEnds(d);
  }

  lemma InspectBootEnds(plan: Plan, c: Context)
    requires NoDevices(c)
    ensures !Waiting(InspectBoot(plan, c).next)
  {
    hide AwaitDevice, NotRun, NoActiveSlot, Judged;
    JudgedFramed(c);
    AwaitDeviceEnds(plan, Judged(c));
  }

  lemma StagedEnds(plan: Plan, c: Context)
    requires NoDevices(c)
    ensures !Waiting(Staged(plan, c).next)
  {
    hide InspectBoot, RefusalFor;
    InspectBootEnds(plan, c);
  }

  lemma NextTargetEnds(plan: Plan, c: Context)
    requires NoDevices(c)
    ensures !Waiting(NextTarget(plan, c).next)
  {
    hide Staged;
    StagedEnds(plan, c.(current := c.current + 1, spent := c.spent.(markRetried := false)));
  }

  lemma MarkOrSkipEnds(plan: Plan, c: Context)
    requires NoDevices(c)
    ensures !Waiting(MarkOrSkip(plan, c).next)
  {
    hide NextTarget;
    NextTargetEnds(plan, c.(swapScheduled := true));
  }

  lemma PlanMarkEnds(plan: Plan, c: Context, slot: nat)
    requires c.current < |c.targets| && NoDevices(c)
    ensures !Waiting(PlanMark(plan, c, slot).next)
  {
    hide RefusalFor, MarkOrSkip;
    var entry := c.targets[c.current].report.(uploadSkipped := true);
    var checked := CheckPreconditions(plan, WithReport(c, c.current, entry));
    if checked.Ok? {
      var kept := WithReport(c, c.current, entry.(uploadSlot := Some(slot)));
      MarkOrSkipEnds(plan, checked.value.(targets := kept.targets));
    }
  }

  lemma {:induction false} PlanFromEnds(plan: Plan, c: Context)
    requires NoDevices(c) && NoBuilds(c)
    ensures !Waiting(PlanFrom(plan, c).next)
    decreases |c.targets| - c.current
  {
    hide Staged, ChooseBuild, PlanMark, NeedOf, RefusalFor;
    if c.current >= |c.targets| {
      StagedEnds(plan, c);
    } else {
      ChooseBuildFramed(c);
      var d := ChooseBuild(c).value;
      var need := NeedOf(plan, Table(d), d.targets[d.current].target, d.targets[d.current].report);
      match need
      case Skip(_, _) => PlanFromEnds(plan, SkipCurrent(d, need));
      case Mark(slot) => PlanMarkEnds(plan, d, slot);
      case Upload =>
    }
  }

  lemma StagingEnds(plan: Plan, state: UpdateState, event: Event, c: Context)
    requires Decidable(state, event, c) && NoDevices(c) && NoBuilds(c)
    ensures !Waiting(DecideStaging(plan, state, event, c).next)
  {
    hide PlanFrom, InspectBoot, AfterReset, NextTarget, MarkOrSkip;
    PlanFromEnds(plan, c);
    InspectBootEnds(plan, c.(targets := SkipAll(c.targets)));
    if state.Uploading? && event.UploadFinished? {
      var entry := c.targets[c.current].report;
      var skipped := entry.uploadSkipped || event.alreadyPresent;
      var done := entry.(bytesTransferred := event.transferred, uploadSkipped := skipped);
      NextTargetEnds(plan, WithReport(c.(uploadInProgress := false), c.current, done));
    } else if state.VerifyingUpload? && event.StateRead? {
      var d := c.(device := event.table);
      var holder := Holder(Table(d), d.targets[d.current].target);
      if holder < |Table(d)| {
        var entry := d.targets[d.current].report.(uploadSlot := Some(Table(d)[holder].slot));
        MarkOrSkipEnds(plan, WithReport(d, d.current, entry));
      }
    } else if state.MarkingForTest? && event.MarkedForTest? {
      NextTargetEnds(plan, c.(device := event.table, swapScheduled := true));
    }
  }

  lemma BootedEnds(plan: Plan, state: UpdateState, event: Event, c: Context)
    requires Decidable(state, event, c) && NoDevices(c) && !Waiting(state)
    ensures !Waiting(DecideBooted(plan, state, event, c).next)
  {
    hide InspectBoot, AwaitDevice, AllClientsKept, NextInTrial, AwaitCommit;
    var d := c.(device := if CarriesTable(event) then event.table else c.device);
    InspectBootEnds(plan, d);
    AwaitCommitEnds(d);
  }

  lemma DecideEnds(plan: Plan, state: UpdateState, event: Event, now: int, timers: Timers, c: Context)
    requires Decidable(state, event, c) && NoDevices(c) && NoBuilds(c) && !Waiting(state) && !IsTerminal(state)
    ensures !Waiting(Decide(plan, state, event, now, timers, c).next)
  {
    hide DecideStaging, DecideBooted;
    StagingEnds(plan, state, event, c);
    BootedEnds(plan, state, event, c);
  }

  lemma {:induction false} NeverWaits(plan: Plan, r: Run, targets: seq<Target>)
    requires Disciplined(plan, r) && About(r, targets) && OneFileEach(targets) && !SomeCommittedBy(targets, Device)
    ensures !Waiting(At(plan, r).state)
  {
    hide At, LastStep, Good, Transition, Decide;
    match r
    case Begin(_) => BeginsIdle(plan, targets);
    case Then(before, event, now) =>
      NeverWaits(plan, before, targets);
      var b := At(plan, before);
      Stepped(plan, r);
      if !IsTerminal(b.state) {
        TargetsKept(plan, before, targets);
        Decided(plan, r);
        DecideEnds(plan, b.state, event, now, b.timers, b.ctx);
      }
  }

  // --- With a timeout no longer than the poll interval no wait is read to its end -----------------

  /** The first poll of a wait would fall due at or after its deadline, so there is none. */
  predicate Hurried(plan: Plan, m: MachineState, outstanding: Effect) {
    && (Waiting(m.state) ==>
          && outstanding.AwaitApply? && m.timers.poll.Some? && m.timers.deadline.Some?
          && m.timers.poll.value - plan.applyPollInterval == m.timers.deadline.value - plan.applyTimeout)
    && (!Waiting(m.state) && !IsTerminal(m.state) ==> m.timers.phase.None?)
  }

  lemma HurriedOn(plan: Plan, b: MachineState, outstanding: Effect, event: Event, now: int, o: Outcome, m: MachineState)
    requires plan.applyTimeout <= plan.applyPollInterval && Hurried(plan, b, outstanding)
    requires !IsTerminal(b.state) && Expects(b.state, outstanding) && Answers(outstanding, event)
    requires if event.Tick? then o == OnTick(b.state, now, b.timers, b.ctx) else Asks(o.next, o.effect)
    requires event.Cancel? ==> o.effect.Finish? && o.next.Cancelled?
    requires m.state == o.next && m.timers == TimersAfter(plan, b.state, event, now, b.timers, o.next, o.effect)
    ensures Hurried(plan, m, if o.effect.Nothing? then outstanding else o.effect)
    ensures Waiting(b.state) ==> !m.state.Completed?
  {
  }

  lemma CancelFinishes(plan: Plan, state: UpdateState, now: int, timers: Timers, c: Context)
    requires Decidable(state, Cancel, c) && !IsTerminal(state)
    ensures var o := Decide(plan, state, Cancel, now, timers, c); o.effect.Finish? && o.next.Cancelled?
  {
  }

  lemma {:induction false} AlwaysHurried(plan: Plan, r: Run)
    requires Disciplined(plan, r) && plan.applyTimeout <= plan.applyPollInterval
    ensures Hurried(plan, At(plan, r), Outstanding(plan, r))
    ensures r.Then? && Waiting(At(plan, r.before).state) ==> !At(plan, r).state.Completed?
  {
    hide At, LastStep, Transition, Decide, Hurried, Answers, OnTick, Asks, TimersAfter, Invariant;
    match r
    case Begin(targets) => BeginsHurried(plan, targets);
    case Then(before, event, now) =>
      AlwaysHurried(plan, before);
      Stepped(plan, r);
      var b := At(plan, before);
      if IsTerminal(b.state) {
        TerminalHurried(plan, At(plan, r), Outstanding(plan, r));
      } else {
        Decided(plan, r);
        var o := Decide(plan, b.state, event, now, b.timers, b.ctx);
        if event.Cancel? {
          CancelFinishes(plan, b.state, now, b.timers, b.ctx);
        }
        HurriedOn(plan, b, Outstanding(plan, before), event, now, o, At(plan, r));
      }
  }

  lemma BeginsHurried(plan: Plan, targets: seq<Target>)
    ensures Hurried(plan, At(plan, Begin(targets)), Nothing)
  {
  }

  lemma TerminalHurried(plan: Plan, m: MachineState, outstanding: Effect)
    requires IsTerminal(m.state)
    ensures Hurried(plan, m, outstanding)
  {
  }

  // --- Where the last table does show the client images kept --------------------------------------

  /** No wait of the run can lead straight to completion. */
  predicate Direct(plan: Plan, targets: seq<Target>) {
    !SomeCommittedBy(targets, Device) || plan.applyTimeout <= plan.applyPollInterval
  }

  lemma {:induction false} DirectlyShown(plan: Plan, r: Run, targets: seq<Target>)
    requires Disciplined(plan, r) && About(r, targets) && OneFileEach(targets) && Direct(plan, targets)
    requires !plan.mode.UploadOnly? && At(plan, r).state.Completed? && !WithoutSetState(At(plan, r).ctx)
    ensures AllClientsKept(Table(At(plan, r).ctx), At(plan, r).ctx.targets)
  {
    hide At, LastStep, Good, Course, Frame, AllClientsKept, AllDevicesKept, AllDevicesRun, TrialsRun, Hurried;
    match r
    case Begin(_) => BeginsIdle(plan, targets);
    case Then(before, event, now) =>
      Stepped(plan, r);
      if IsTerminal(At(plan, before).state) {
        DirectlyShown(plan, before, targets);
      } else if !SomeCommittedBy(targets, Device) {
        NeverWaits(plan, before, targets);
      } else {
        AlwaysHurried(plan, r);
      }
  }

  lemma NoClientsKept(t: SlotTable, c: Context, targets: seq<Target>)
    requires Pursues(c, targets) && !SomeCommittedBy(targets, Client)
    ensures AllClientsKept(t, c.targets)
  {
  }

  // --- Where it need not ---------------------------------------------------------------------------

  /** A package whose targets can be told apart. */
  predicate ToldApart(targets: seq<Target>) {
    && (forall k :: 0 <= k < |targets| ==> targets[k].hash != [] && targets[k].builds.None?)
    && (forall j, k :: 0 <= j < k < |targets| ==> targets[j].image != targets[k].image)
  }

  /** Every target runs: the client's kept, the device's still on trial. */
  function TrialTable(targets: seq<Target>): (t: SlotTable)
    ensures |t| == |targets|
  {
    seq(|targets|, k requires 0 <= k < |targets| =>
      ImageSlot(targets[k].image, 0, None, Some(targets[k].hash), false, targets[k].commit.Client?, true))
  }

  /** Later the device's are kept, and the client's are gone. */
  function CommitTable(targets: seq<Target>): (t: SlotTable)
    ensures |t| == |targets|
  {
    seq(|targets|, k requires 0 <= k < |targets| =>
      ImageSlot(targets[k].image, 0, None, if targets[k].commit.Device? then Some(targets[k].hash) else None, false,
                true, true))
  }

  lemma RowsFound(t: SlotTable, targets: seq<Target>, k: nat)
    requires ToldApart(targets) && |t| == |targets| && k < |t|
    requires forall j :: 0 <= j < |t| ==> t[j].image == targets[j].image && t[j].active
    ensures Active(t, targets[k].image) == k
    ensures Holds(t[k], targets[k]) ==> Holder(t, targets[k]) == k
  {
    var a := Active(t, targets[k].image);
    assert t[k].image == targets[k].image && t[k].active;
    assert a <= k && t[a].image == targets[a].image;
    assert a == k;
    if Holds(t[k], targets[k]) {
      var h := Holder(t, targets[k]);
      assert h <= k && t[h].image == targets[h].image;
    }
  }

  lemma TrialShows(targets: seq<Target>, k: nat)
    requires ToldApart(targets) && k < |targets|
    ensures var t := TrialTable(targets);
            && Active(t, targets[k].image) == k && Holder(t, targets[k]) == k && Runs(t, targets[k])
            && (Keeps(t, targets[k]) <==> targets[k].commit.Client?)
            && ApplyOf(t, targets[k]) == if targets[k].commit.Client? then Committed else OnTrial
  {
    RowsFound(TrialTable(targets), targets, k);
  }

  lemma CommitShows(targets: seq<Target>, k: nat)
    requires ToldApart(targets) && k < |targets|
    ensures var t := CommitTable(targets);
            if targets[k].commit.Device? then Keeps(t, targets[k]) && ApplyOf(t, targets[k]) == Committed
            else !Runs(t, targets[k])
  {
    RowsFound(CommitTable(targets), targets, k);
  }

  /** About to judge or plan on the first table, with nothing scheduled. */
  predicate Ready(c: Context, targets: seq<Target>) {
    && Pursues(c, targets) && c.device == Some(TrialTable(targets)) && c.mode == OPENING_MODE && !c.swapScheduled
    && forall k :: 0 <= k < |c.targets| ==> !c.targets[k].inTrial
  }

  /** The machine waits for the device's commit, about these targets. */
  predicate AwaitsCommit(o: Outcome, targets: seq<Target>) {
    o.next.AwaitingDeviceCommit? && o.effect.AwaitApply? && Pursues(o.ctx, targets) && o.ctx.mode == OPENING_MODE
  }

  lemma TrialReports(targets: seq<Target>, image: Image, k: nat, apply: Apply)
    requires ToldApart(targets) && k < |targets| && image.target == targets[k]
    ensures Reports(TrialTable(targets), image, apply) <==> image.target.commit.Device? && apply == OnTrial
  {
    hide TrialTable, ApplyOf;
    TrialShows(targets, k);
  }

  lemma CommitAwaited(c: Context, targets: seq<Target>)
    requires ToldApart(targets) && Ready(c, targets) && SomeCommittedBy(targets, Device)
    ensures AwaitsCommit(AwaitCommit(c), targets)
  {
    var t := TrialTable(targets);
    forall k, apply | 0 <= k < |c.targets|
      ensures Reports(t, c.targets[k], apply) <==> targets[k].commit.Device? && apply == OnTrial
    {
      TrialReports(targets, c.targets[k], k, apply);
    }
    hide TrialTable, Reports, ObservedBelow;
    ObservedKeepsTrials(t, c.targets, FirstLost(t, c.targets, 0));
    var d :| 0 <= d < |targets| && targets[d].commit == Device;
    assert Reports(t, c.targets[d], OnTrial);
  }

  lemma DeviceAwaited(plan: Plan, c: Context, targets: seq<Target>)
    requires ToldApart(targets) && Ready(c, targets) && SomeCommittedBy(targets, Device)
    ensures AwaitsCommit(AwaitDevice(plan, c), targets)
  {
    var t := TrialTable(targets);
    forall k, apply | 0 <= k < |c.targets|
      ensures Reports(t, c.targets[k], apply) <==> targets[k].commit.Device? && apply == OnTrial
    {
      TrialReports(targets, c.targets[k], k, apply);
    }
    hide TrialTable, Reports, ObservedBelow, AwaitCommit, AwaitsCommit, SomeCommittedBy;
    var d := c.(targets := ObservedBelow(t, c.targets, FirstFailed(t, c.targets, 0)));
    ObservedKeepsTrials(t, c.targets, FirstFailed(t, c.targets, 0));
    CommitAwaited(d, targets);
  }

  lemma JudgedReady(c: Context, targets: seq<Target>)
    requires ToldApart(targets) && Ready(c, targets)
    ensures Ready(Judged(c), targets)
    ensures forall k :: 0 <= k < |c.targets| ==>
            !NoActiveSlot(Table(c), c.targets[k]) && !NotRun(Table(c), c.targets[k])
  {
    forall k | 0 <= k < |c.targets|
      ensures !NoActiveSlot(Table(c), c.targets[k]) && !NotRun(Table(c), c.targets[k])
      ensures !RunningOnTrial(Table(c), c.targets[k].target)
    {
      hide TrialTable, Keeps, Runs;
      TrialShows(targets, k);
    }
    hide TrialTable, NoActiveSlot, NotRun, RunningOnTrial, AnythingPending;
  }

  lemma BootJudged(plan: Plan, c: Context, targets: seq<Target>)
    requires ToldApart(targets) && Ready(c, targets) && SomeCommittedBy(targets, Device)
    ensures AwaitsCommit(InspectBoot(plan, c), targets)
  {
    hide Ready, NoActiveSlot, NotRun, Judged, AwaitDevice, AwaitsCommit, ToldApart;
    JudgedReady(c, targets);
    DeviceAwaited(plan, Judged(c), targets);
  }

  lemma TrialSkipped(plan: Plan, targets: seq<Target>, k: nat, entry: ImageReport)
    requires ToldApart(targets) && k < |targets|
    ensures NeedOf(plan, TrialTable(targets), targets[k], entry) == Skip(entry.(uploadSkipped := true), false)
  {
    hide TrialTable, Active, Holder;
    TrialShows(targets, k);
  }

  lemma {:induction false} AllSkipped(plan: Plan, c: Context, targets: seq<Target>)
    requires ToldApart(targets) && Ready(c, targets) && SomeCommittedBy(targets, Device) && !plan.mode.UploadOnly?
    ensures AwaitsCommit(PlanFrom(plan, c), targets)
    decreases |c.targets| - c.current
  {
    hide TrialTable, NeedOf, InspectBoot, AwaitsCommit, SomeCommittedBy;
    if c.current >= |c.targets| {
      BootJudged(plan, c, targets);
    } else {
      var entry := c.targets[c.current].report;
      TrialSkipped(plan, targets, c.current, entry);
      AllSkipped(plan, SkipCurrent(c, Skip(entry.(uploadSkipped := true), false)), targets);
    }
  }

  lemma PlansToWait(plan: Plan, targets: seq<Target>)
    requires ToldApart(targets) && SomeCommittedBy(targets, Device) && !plan.mode.UploadOnly?
    ensures AwaitsCommit(PlanFromState(plan, Opened(targets, TrialTable(targets))), targets)
  {
    var c := Opened(targets, TrialTable(targets));
    forall k | 0 <= k < |c.targets|
      ensures !RunningOnTrial(Table(c), c.targets[k].target)
    {
      hide TrialTable, Keeps, Runs;
      TrialShows(targets, k);
    }
    hide TrialTable, AwaitsCommit, PlanFrom, RunningOnTrial;
    AllSkipped(plan, c, targets);
  }

  /** The device's images are committed, and nobody looks at the client's. */
  lemma CommitSeen(c: Context, targets: seq<Target>)
    requires ToldApart(targets) && Pursues(c, targets) && c.device == Some(CommitTable(targets))
    ensures var o := AwaitCommit(c);
            && o.next.Completed? && o.effect.Finish? && Pursues(o.ctx, targets)
            && o.ctx.device == c.device && o.ctx.mode == c.mode
  {
    var t := CommitTable(targets);
    forall k | 0 <= k < |c.targets|
      ensures !Lost(t, c.targets[k]) && !Reports(t, c.targets[k], OnTrial)
    {
      CommitShows(targets, k);
    }
    hide CommitTable, Reports, Lost, ObservedBelow;
    ObservedKeepsTrials(t, c.targets, FirstLost(t, c.targets, 0));
  }

  /** The run that waits for the commit, reads once and completes. */
  function WaitingRun(plan: Plan, targets: seq<Target>): Run {
    Then(Then(Opening(targets, TrialTable(targets)), Proceed, 0), Tick, plan.applyPollInterval)
  }

  function CompletingRun(plan: Plan, targets: seq<Target>): Run {
    Then(WaitingRun(plan, targets), StateRead(Some(CommitTable(targets))), plan.applyPollInterval)
  }

  lemma WaitsForCommit(plan: Plan, targets: seq<Target>) returns (o: Outcome, timers: Timers)
    requires ToldApart(targets) && SomeCommittedBy(targets, Device) && !plan.mode.UploadOnly?
    requires plan.applyPollInterval < plan.applyTimeout
    ensures On(plan, WaitingRun(plan, targets), o, timers)
    ensures o.next.AwaitingDeviceCommit? && o.effect.ReadState? && Pursues(o.ctx, targets) && o.ctx.mode == OPENING_MODE
  {
    hide On, TrialTable, PlanFromState, Opening, Opened, DecideBooted, DecideQuery, DecideStaging, ToldApart, LastStep;
    var t := TrialTable(targets);
    Opens(plan, targets, t);
    PlansToWait(plan, targets);
    var planned := PlanFromState(plan, Opened(targets, t));
    var from := Outcome(Opened(targets, t), Planning, Continue);
    OpenedDecidable(targets, t);
    PlanningDecides(plan, NO_TIMERS, from.ctx);
    Walk(plan, Opening(targets, t), from, NO_TIMERS, Proceed, 0, planned);
    var armed := Timers(None, Some(plan.applyPollInterval), Some(plan.applyTimeout), Some(AwaitingDeviceCommit));
    o := Outcome(planned.ctx, AwaitingDeviceCommit, ReadState);
    timers := TimersAfter(plan, AwaitingDeviceCommit, Tick, plan.applyPollInterval, armed, o.next, o.effect);
    Walk(plan, Then(Opening(targets, t), Proceed, 0), planned, armed, Tick, plan.applyPollInterval, o);
  }

  lemma OpenedDecidable(targets: seq<Target>, t: SlotTable)
    requires targets != []
    ensures Decidable(Planning, Proceed, Opened(targets, t))
  {
  }

  /**
    With a device image, a client image and a timeout that allows one read, this run completes on a
    table in which no client image even runs its target.
   */
  lemma CompletesWithoutClients(plan: Plan, targets: seq<Target>)
    requires ToldApart(targets) && SomeCommittedBy(targets, Device) && SomeCommittedBy(targets, Client)
    requires !plan.mode.UploadOnly? && plan.applyPollInterval < plan.applyTimeout
    ensures var r := CompletingRun(plan, targets);
            && Disciplined(plan, r) && About(r, targets) && At(plan, r).state.Completed?
            && At(plan, r).ctx.mode == OPENING_MODE
            && At(plan, r).ending.finalDeviceState == Some(CommitTable(targets))
            && !AllClientsKept(CommitTable(targets), At(plan, r).ctx.targets)
  {
    var o, timers := WaitsForCommit(plan, targets);
    var t := CommitTable(targets);
    var c := o.ctx.(device := Some(t));
    CommitSeen(c, targets);
    CommitDecides(plan, plan.applyPollInterval, timers, o.ctx, t);
    hide CommitTable, AwaitCommit, WaitingRun, Decide, At, Disciplined, Outstanding, Summarised, TimersFit, Invariant;
    Walk(plan, WaitingRun(plan, targets), o, timers, StateRead(Some(t)), plan.applyPollInterval, AwaitCommit(c));
    RunGood(plan, CompletingRun(plan, targets));
    var k :| 0 <= k < |targets| && targets[k].commit == Client;
    CommitShows(targets, k);
    ItsOwn(plan, targets);
  }

  lemma ItsOwn(plan: Plan, targets: seq<Target>)
    ensures About(CompletingRun(plan, targets), targets)
  {
    var r := Opening(targets, TrialTable(targets));
    assert About(r.before.before, targets);
    assert About(r, targets);
    assert About(WaitingRun(plan, targets), targets);
  }

  lemma CommitDecides(plan: Plan, now: int, timers: Timers, c: Context, t: SlotTable)
    requires |c.targets| > 0
    ensures Decidable(AwaitingDeviceCommit, StateRead(Some(t)), c)
    ensures Decide(plan, AwaitingDeviceCommit, StateRead(Some(t)), now, timers, c) == AwaitCommit(c.(device := Some(t)))
  {
  }

  // --- Exactly when -------------------------------------------------------------------------------

  /** Every completed run that could confirm reports a table that shows the client images kept. */
  ghost predicate AlwaysShown(plan: Plan, targets: seq<Target>) {
    forall r: Run :: Disciplined(plan, r) && About(r, targets) ==> Shown(plan, r)
  }

  ghost predicate Shown(plan: Plan, r: Run) {
    var m := At(plan, r);
    m.state.Completed? && !m.ctx.mode.mode.DirectXip? ==>
      m.ending.finalDeviceState.Some? && AllClientsKept(m.ending.finalDeviceState.value, m.ctx.targets)
  }

  lemma ShownDirectly(plan: Plan, r: Run, targets: seq<Target>)
    requires Disciplined(plan, r) && About(r, targets) && OneFileEach(targets) && !plan.mode.UploadOnly?
    requires Direct(plan, targets) || !SomeCommittedBy(targets, Client)
    ensures Shown(plan, r)
  {
    hide At, AllClientsKept, About, LastTable, AllDevicesKept, ShowedClientsKept, Direct, SomeCommittedBy;
    var m := At(plan, r);
    if m.state.Completed? && !m.ctx.mode.mode.DirectXip? {
      CompletedIsTrue(plan, r);
      DeviceIsLastTable(plan, r);
      if Direct(plan, targets) {
        DirectlyShown(plan, r, targets);
      } else {
        TargetsKept(plan, r, targets);
        NoClientsKept(m.ending.finalDeviceState.value, m.ctx, targets);
      }
    }
  }

  /**
    The reported table of a completed update is sure to show every client image kept exactly if no
    target is the device's, or none is the client's, or the timeout leaves no room for a single read
    while waiting.
   */
  lemma FinalTableExactly(plan: Plan, targets: seq<Target>)
    requires targets != [] && ToldApart(targets) && !plan.mode.UploadOnly?
    ensures AlwaysShown(plan, targets) <==>
            || !SomeCommittedBy(targets, Device) || !SomeCommittedBy(targets, Client)
            || plan.applyTimeout <= plan.applyPollInterval
  {
    hide At, Disciplined, About, AllClientsKept, CommitTable, CompletingRun;
    if !SomeCommittedBy(targets, Client) || Direct(plan, targets) {
      forall r: Run | Disciplined(plan, r) && About(r, targets)
        ensures Shown(plan, r)
      {
        ShownDirectly(plan, r, targets);
      }
    } else {
      var r := CompletingRun(plan, targets);
      CompletesWithoutClients(plan, targets);
      assert !Shown(plan, r);
    }
  }
}
