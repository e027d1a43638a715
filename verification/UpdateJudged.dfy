/**
  The tables of a run that `UpdateTheorems.BootTable` and `ApplyTable` record: once an update is past
  its reset, they are tables that the check after the boot and the wait for the device have judged.
 */
module UpdateJudged {
  import opened Common
  import opened UpdateTypes
  import opened UpdateMachine
  import opened UpdateInvariant
  import opened UpdateSteps
  import opened UpdateRuns
  import opened UpdateTheorems
  import opened UpdateRecovery

  /** The states in which what the device booted has been judged. */
  predicate Past(state: UpdateState) {
    AtConfirm(state) || Waiting(state) || state.VerifyingConfirmed?
  }

  /** The context with which planning from `c` ends, if it ends in a judgement: past every image it skips. */
  function PlanEnd(plan: Plan, c: Context): Context
    decreases |c.targets| - c.current
  {
    if c.current >= |c.targets| || ChooseBuild(c).Err? then c else
    var d := ChooseBuild(c).value;
    var need := NeedOf(plan, Table(d), d.targets[d.current].target, d.targets[d.current].report);
    if need.Skip? then PlanEnd(plan, SkipCurrent(d, need)) else d
  }

  /** The context that is checked after a boot when `event` meets `c` in `state`. */
  function BootContext(plan: Plan, state: UpdateState, event: Event, c: Context): Context {
    if state.Planning? then
      if AfterReset(c) && !plan.mode.UploadOnly? then c.(targets := SkipAll(c.targets)) else PlanEnd(plan, c)
    else if CarriesTable(event) then c.(device := event.table) else c
  }

  /** The context with which the wait for the device is entered or left. */
  function ApplyContext(plan: Plan, state: UpdateState, event: Event, c: Context): Context {
    if state.AwaitingDeviceApply? && CarriesTable(event) then c.(device := event.table)
    else Judged(BootContext(plan, state, event, c))
  }

  /** Meeting `event` in `state`, the machine checked the boot on the table `t`, and `o` is its verdict. */
  predicate BootJudgedOn(plan: Plan, t: SlotTable, state: UpdateState, event: Event, c: Context, o: Outcome) {
    var d := BootContext(plan, state, event, c);
    Table(d) == t && InspectBoot(plan, d) == o
  }

  /** ... or looked on the table `t` for the device's own images. */
  predicate ApplyJudgedOn(plan: Plan, t: SlotTable, state: UpdateState, event: Event, c: Context, o: Outcome) {
    var d := ApplyContext(plan, state, event, c);
    Table(d) == t && AwaitDevice(plan, d) == o
  }

  /** The check after a boot goes on to the wait for the device, unless it fails. */
  lemma BootThenApply(plan: Plan, t: SlotTable, state: UpdateState, event: Event, c: Context, o: Outcome)
    requires BootJudgedOn(plan, t, state, event, c, o) && Past(o.next) && !state.AwaitingDeviceApply?
    ensures ApplyJudgedOn(plan, t, state, event, c, o)
  {
    hide Judged, AwaitDevice, NoActiveSlot, NotRun, BootContext;
    JudgedFramed(BootContext(plan, state, event, c));
  }

  // --- Which decisions lead past the reset --------------------------------------------------------

  lemma StagedJudges(plan: Plan, c: Context)
    requires Past(Staged(plan, c).next)
    ensures InspectBoot(plan, c) == Staged(plan, c)
  {
    hide InspectBoot, RefusalFor;
  }

  lemma {:induction false} PlanFromJudges(plan: Plan, c: Context)
    requires Past(PlanFrom(plan, c).next)
    ensures Table(PlanEnd(plan, c)) == Table(c) && InspectBoot(plan, PlanEnd(plan, c)) == PlanFrom(plan, c)
    decreases |c.targets| - c.current
  {
    hide Staged, ChooseBuild, NeedOf, RefusalFor, InspectBoot, PlanMark, PlanUpload;
    if c.current >= |c.targets| {
      StagedJudges(plan, c);
    } else {
      ChooseBuildFramed(c);
      if ChooseBuild(c).Ok? {
        var d := ChooseBuild(c).value;
        var need := NeedOf(plan, Table(d), d.targets[d.current].target, d.targets[d.current].report);
        match need
        case Skip(_, _) => PlanFromJudges(plan, SkipCurrent(d, need));
        case Mark(slot) => MarkStages(plan, d, slot);
        case Upload => UploadStages(plan, d);
      }
    }
  }

  lemma NextTargetStages(plan: Plan, c: Context)
    requires c.swapScheduled || plan.mode.UploadOnly?
    ensures !Past(NextTarget(plan, c).next)
  {
    hide InspectBoot, RefusalFor;
  }

  lemma MarkStages(plan: Plan, c: Context, slot: nat)
    requires c.current < |c.targets|
    ensures !Past(PlanMark(plan, c, slot).next)
  {
    hide RefusalFor, NextTarget;
    var entry := c.targets[c.current].report.(uploadSkipped := true);
    var checked := CheckPreconditions(plan, WithReport(c, c.current, entry));
    if checked.Ok? {
      var kept := WithReport(c, c.current, entry.(uploadSlot := Some(slot)));
      NextTargetStages(plan, checked.value.(targets := kept.targets, swapScheduled := true));
    }
  }

  lemma UploadStages(plan: Plan, c: Context)
    ensures !Past(PlanUpload(plan, c).next)
  {
    hide RefusalFor;
  }

  lemma PlanningJudges(plan: Plan, event: Event, c: Context)
    requires Past(PlanFromState(plan, c).next)
    ensures BootJudgedOn(plan, Table(c), Planning, event, c, PlanFromState(plan, c))
  {
    hide PlanFrom, InspectBoot, AfterReset, PlanEnd;
    if !(AfterReset(c) && !plan.mode.UploadOnly?) {
      PlanFromJudges(plan, c);
    }
  }

  /** Staging leads past the reset only from planning. */
  lemma StagingJudges(plan: Plan, state: UpdateState, event: Event, c: Context)
    requires Decidable(state, event, c)
    ensures var o := DecideStaging(plan, state, event, c);
            Past(o.next) ==> state.Planning? && o == PlanFromState(plan, c)
  {
    hide PlanFromState, NextTarget;
    if state.Uploading? && event.UploadFinished? {
      var entry := c.targets[c.current].report;
      var skipped := entry.uploadSkipped || event.alreadyPresent;
      var done := entry.(bytesTransferred := event.transferred, uploadSkipped := skipped);
      if plan.mode.UploadOnly? {
        NextTargetStages(plan, WithReport(c.(uploadInProgress := false), c.current, done));
      }
    } else if state.VerifyingUpload? && event.StateRead? {
      var d := c.(device := event.table);
      var holder := Holder(Table(d), d.targets[d.current].target);
      if holder < |Table(d)| {
        var entry := d.targets[d.current].report.(uploadSlot := Some(Table(d)[holder].slot));
        NextTargetStages(plan, WithReport(d, d.current, entry).(swapScheduled := true));
      }
    } else if state.MarkingForTest? && event.MarkedForTest? {
      NextTargetStages(plan, c.(device := event.table, swapScheduled := true));
    }
  }

  /** After the boot, from the check itself, or from a state that is past it. */
  lemma BootedJudges(plan: Plan, state: UpdateState, event: Event, c: Context)
    requires Decidable(state, event, c)
    ensures var o := DecideBooted(plan, state, event, c);
            && (Past(o.next) ==> Past(state) || state.VerifyingBooted?)
            && (Past(o.next) && state.VerifyingBooted? ==>
                event.StateRead? && o == InspectBoot(plan, c.(device := event.table)))
            && (Past(o.next) && state.AwaitingDeviceApply? && !o.next.AwaitingDeviceApply? ==>
                event.StateRead? && o == AwaitDevice(plan, c.(device := event.table)))
  {
    hide InspectBoot, AwaitDevice, AwaitCommit, AllClientsKept, NextInTrial;
  }

  /** One decision that leads past the reset, or goes on there. */
  lemma DecideJudges(plan: Plan, state: UpdateState, event: Event, now: int, timers: Timers, c: Context)
    requires Decidable(state, event, c) && !IsTerminal(state)
    requires Past(Decide(plan, state, event, now, timers, c).next)
    ensures var o := Decide(plan, state, event, now, timers, c);
            && (Past(state) || Inspects(state, o.next))
            && (Inspects(state, o.next) ==> BootJudgedOn(plan, Table(o.ctx), state, event, c, o))
            && (Inspects(state, o.next) || (state.AwaitingDeviceApply? && !o.next.AwaitingDeviceApply?) ==>
                ApplyJudgedOn(plan, Table(o.ctx), state, event, c, o))
  {
    hide DecideStaging, DecideBooted, InspectBoot, AwaitDevice, PlanFromState, BootJudgedOn, ApplyJudgedOn;
    var o := Decide(plan, state, event, now, timers, c);
    StagingJudges(plan, state, event, c);
    BootedJudges(plan, state, event, c);
    if state.Planning? {
      PlanningJudges(plan, event, c);
      PlanFromStateFramed(plan, c);
      BootThenApply(plan, Table(o.ctx), state, event, c, o);
    } else if state.VerifyingBooted? {
      InspectBootFramed(plan, c.(device := event.table));
      BootJudgment(plan, event, c);
      BootThenApply(plan, Table(o.ctx), state, event, c, o);
    } else if state.AwaitingDeviceApply? && !o.next.AwaitingDeviceApply? {
      AwaitDeviceFramed(plan, c.(device := event.table));
      ApplyJudgment(plan, event, c);
    }
  }

  lemma BootJudgment(plan: Plan, event: Event, c: Context)
    requires event.StateRead?
    ensures var d := c.(device := event.table);
            BootJudgedOn(plan, Table(d), VerifyingBooted, event, c, InspectBoot(plan, d))
  {
    hide InspectBoot;
  }

  lemma ApplyJudgment(plan: Plan, event: Event, c: Context)
    requires event.StateRead?
    ensures var d := c.(device := event.table);
            ApplyJudgedOn(plan, Table(d), AwaitingDeviceApply, event, c, AwaitDevice(plan, d))
  {
    hide AwaitDevice;
  }

  // --- Over whole runs ----------------------------------------------------------------------------

  /** The last step of `q` checked the boot, in the machine's own context, on the table `t`. */
  predicate ChecksBoot(plan: Plan, q: Run, t: SlotTable) {
    q.Then? && BootJudgedOn(plan, t, At(plan, q.before).state, q.event, At(plan, q.before).ctx, LastOutcome(plan, q))
  }

  /** The last step of `q` looked for the device's images on the table `t`. */
  predicate ChecksDevice(plan: Plan, q: Run, t: SlotTable) {
    q.Then? && ApplyJudgedOn(plan, t, At(plan, q.before).state, q.event, At(plan, q.before).ctx, LastOutcome(plan, q))
  }

  /** The last step of `q`, as a decision. */
  function LastOutcome(plan: Plan, q: Run): Outcome
    requires q.Then?
  {
    Outcome(At(plan, q).ctx, At(plan, q).state, LastStep(plan, q).effect)
  }

  /**
    Past the reset, the recorded boot table is one that the check after the boot judged in the run, and
    the recorded apply table one that the wait for the device judged.
   */
  lemma {:induction false} TablesJudged(plan: Plan, r: Run) returns (boot: Run, apply: Run)
    requires Disciplined(plan, r) && Past(At(plan, r).state)
    ensures Continues(r, boot) && ChecksBoot(plan, boot, BootTable(plan, r))
    ensures Continues(r, apply) && ChecksDevice(plan, apply, ApplyTable(plan, r))
  {
    hide At, LastStep, Good, Transition, Decide, BootJudgedOn, ApplyJudgedOn, Table;
    if r.Begin? {
      BeginsIdle(plan, r.targets);
    } else {
      var b := At(plan, r.before);
      Stepped(plan, r);
      if IsTerminal(b.state) {
        assert false;
      } else {
        Decided(plan, r);
        DecideJudges(plan, b.state, r.event, r.now, b.timers, b.ctx);
        boot, apply := r, r;
        if !Inspects(b.state, At(plan, r).state) {
          boot, apply := TablesJudged(plan, r.before);
          if b.state.AwaitingDeviceApply? && !At(plan, r).state.AwaitingDeviceApply? {
            apply := r;
          }
        }
      }
    }
  }
}
