/**
  What holds of every disciplined run of the update machine, whatever the device, the link and the
  application do.
 */
module UpdateTheorems {
  import opened Common
  import opened UpdateTypes
  import opened UpdateMachine
  import opened UpdateInvariant
  import opened UpdateSteps
  import opened UpdateRuns

  /** The last event of a run was one decision, or fell on an update that had ended. */
  lemma Stepped(plan: Plan, r: Run)
    requires r.Then? && Disciplined(plan, r)
    ensures Good(plan, Blamed(r), At(plan, r.before), Outstanding(plan, r.before))
    ensures Good(plan, Blamed(r), At(plan, r), Outstanding(plan, r))
    ensures var b := At(plan, r.before);
            var m := At(plan, r);
            var effect := LastStep(plan, r).effect;
            if IsTerminal(b.state) then m == b && effect.Nothing?
            else && Transition(plan, b.state, r.event, b.ctx, Outcome(m.ctx, m.state, effect))
                 && Asked(r.event, m.state, effect)
  {
    RunGood(plan, r.before);
    if Blamed(r) && !Blamed(r.before) {
      BlameKept(plan, At(plan, r.before), Outstanding(plan, r.before));
    }
    RunGood(plan, r);
    hide Good, Transition, Decide, Advance, Invariant, Answers, Expects, Decidable;
    var b := At(plan, r.before);
    if IsTerminal(b.state) {
      TerminalAbsorbs(plan, Blamed(r), b, Outstanding(plan, r.before), r.event, r.now);
    } else {
      DecidedTransition(plan, Blamed(r), b, Outstanding(plan, r.before), r.event, r.now);
    }
  }

  /** A step asks for what its new state expects; only time may pass without a new request. */
  predicate Asked(event: Event, next: UpdateState, effect: Effect) {
    (event.Tick? && !IsTerminal(next) && (effect.Nothing? || effect.ReadState?)) || Expects(next, effect)
  }

  lemma DecidedTransition(plan: Plan, blamed: bool, m: MachineState, outstanding: Effect, event: Event, now: int)
    requires Good(plan, blamed, m, outstanding) && !IsTerminal(m.state)
    requires Answers(outstanding, event) && (BringsInternal(event) ==> blamed)
    ensures var r := ApplyEvent(plan, m, event, now);
            && Transition(plan, m.state, event, m.ctx, Outcome(r.0.ctx, r.0.state, r.1.effect))
            && Asked(event, r.0.state, r.1.effect)
  {
    hide Transition, Decide, Invariant, Answers, Decidable;
    GuardsPass(plan, blamed, m, outstanding, event, now);
    DecideTransition(plan, blamed, m.state, event, now, m.timers, m.ctx, outstanding);
  }

  // --- The update ends once, for good -------------------------------------------------------------

  /** How often a run has asked the driver for `effect`. */
  function Emissions(plan: Plan, r: Run, effect: Effect): nat {
    match r
    case Begin(_) => 0
    case Then(before, _, _) => Emissions(plan, before, effect) + if LastStep(plan, r).effect == effect then 1 else 0
  }

  /** `r` continues `q`. */
  predicate Continues(r: Run, q: Run) {
    r == q || (r.Then? && Continues(r.before, q))
  }

  lemma BeginsIdle(plan: Plan, targets: seq<Target>)
    ensures At(plan, Begin(targets)) == Initial(targets) && Initial(targets).state.Idle?
  {
  }

  /** Finish is emitted exactly once, by the step that ends the update. */
  lemma {:induction false} FinishOnce(plan: Plan, r: Run)
    requires Disciplined(plan, r)
    ensures Emissions(plan, r, Finish) == if IsTerminal(At(plan, r).state) then 1 else 0
  {
    hide At, LastStep, Transition, Good;
    match r
    case Begin(targets) => BeginsIdle(plan, targets);
    case Then(before, event, now) =>
      FinishOnce(plan, before);
      Stepped(plan, r);
  }

  /** Once an update has ended, nothing about it changes, whatever is delivered afterwards. */
  lemma {:induction false} EndedForGood(plan: Plan, q: Run, r: Run)
    requires Disciplined(plan, r) && Continues(r, q) && IsTerminal(At(plan, q).state)
    ensures At(plan, r) == At(plan, q)
  {
    if r == q {
    } else {
      EndedForGood(plan, q, r.before);
      hide Disciplined, At, Good, Transition, LastStep;
      Stepped(plan, r);
    }
  }

  /** An update fails with `Internal` only if the driver itself delivered that error. */
  lemma InternalOnlyFromDriver(plan: Plan, r: Run)
    requires Disciplined(plan, r) && At(plan, r).ctx.verdict.cause.Some?
    ensures At(plan, r).ctx.verdict.cause.value.code.Internal? ==> Blamed(r)
    ensures At(plan, r).state.Failed?
  {
    RunGood(plan, r);
  }

  // --- What a run may ask of the device -----------------------------------------------------------

  /** The requests that change something on the device. */
  predicate IsCommand(effect: Effect) {
    || effect.StartUpload? || effect.ResumeUpload? || effect.MarkForTest?
    || effect.Reset? || effect.ForceReset? || effect.Confirm?
  }

  /** A state whose step is a command has passed the refusal checks, and nothing is refused in it. */
  lemma CommandChecked(plan: Plan, blamed: bool, m: MachineState, outstanding: Effect, effect: Effect)
    requires Good(plan, blamed, m, outstanding) && Expects(m.state, effect) && IsCommand(effect)
    ensures m.ctx.verdict.refusal.None? && (PreBoot(m.state, m.ctx) ==> m.ctx.spent.preconditionsChecked)
    ensures plan.mode.UploadOnly? ==> effect.StartUpload? || effect.ResumeUpload?
    ensures effect.MarkForTest? || effect.Confirm? ==> !WithoutSetState(m.ctx) && !Early(m.state)
    ensures effect.Reset? || effect.ForceReset? ==> !PreBoot(m.state, m.ctx)
  {
    hide TimersFit;
  }

  lemma {:induction false} CommandsChecked(plan: Plan, r: Run, effect: Effect)
    requires Disciplined(plan, r) && IsCommand(effect)
    ensures Emissions(plan, r, effect) > 0 ==>
              && At(plan, r).ctx.verdict.refusal.None?
              && (PreBoot(At(plan, r).state, At(plan, r).ctx) ==> At(plan, r).ctx.spent.preconditionsChecked)
  {
    hide At, LastStep, Good, Grounds, Expects, PreBoot;
    if r.Begin? {
    } else {
      CommandsChecked(plan, r.before, effect);
      Stepped(plan, r);
      if LastStep(plan, r).effect == effect {
        CommandChecked(plan, Blamed(r), At(plan, r), Outstanding(plan, r), effect);
      }
    }
  }

  /** A run that ends in a refusal has sent no command at all. */
  lemma RefusedRunSendsNothing(plan: Plan, r: Run, effect: Effect)
    requires Disciplined(plan, r) && IsCommand(effect) && At(plan, r).ctx.verdict.refusal.Some?
    ensures Emissions(plan, r, effect) == 0
  {
    hide At;
    CommandsChecked(plan, r, effect);
  }

  /** An upload-only update never marks, resets or confirms. */
  lemma {:induction false} UploadOnlySendsUploads(plan: Plan, r: Run, effect: Effect)
    requires Disciplined(plan, r) && plan.mode.UploadOnly?
    requires effect.MarkForTest? || effect.Reset? || effect.ForceReset? || effect.Confirm?
    ensures Emissions(plan, r, effect) == 0
  {
    hide At, LastStep, Good, Transition, Expects;
    if r.Begin? {
    } else {
      UploadOnlySendsUploads(plan, r.before, effect);
      Stepped(plan, r);
      if LastStep(plan, r).effect == effect {
        CommandChecked(plan, Blamed(r), At(plan, r), Outstanding(plan, r), effect);
      }
    }
  }

  /** Marks and confirms are emitted only in runs whose recorded mode is not plain direct-XIP. */
  lemma {:induction false} XipNeverMarks(plan: Plan, r: Run, effect: Effect)
    requires Disciplined(plan, r) && (effect.MarkForTest? || effect.Confirm?)
    ensures Emissions(plan, r, effect) > 0 ==> !WithoutSetState(At(plan, r).ctx) && !Early(At(plan, r).state)
  {
    hide At, LastStep, Good, Course, Grounds, Expects;
    if r.Begin? {
    } else {
      XipNeverMarks(plan, r.before, effect);
      Stepped(plan, r);
      if LastStep(plan, r).effect == effect {
        CommandChecked(plan, Blamed(r), At(plan, r), Outstanding(plan, r), effect);
      }
    }
  }

  /** Reset is asked for at most once: before it the update is still staging, after it never again. */
  lemma {:induction false} ResetOnce(plan: Plan, r: Run)
    requires Disciplined(plan, r)
    ensures Emissions(plan, r, Reset) <= 1
    ensures Emissions(plan, r, Reset) == 1 ==> !PreBoot(At(plan, r).state, At(plan, r).ctx)
  {
    hide At, LastStep, Good, Frame, Grounds, Expects, PreBoot;
    if r.Begin? {
    } else {
      ResetOnce(plan, r.before);
      Stepped(plan, r);
      if LastStep(plan, r).effect == Reset {
        CommandChecked(plan, Blamed(r), At(plan, r), Outstanding(plan, r), Reset);
      }
    }
  }

  /** The forced reset is a one-time allowance. */
  lemma {:induction false} ForceResetOnce(plan: Plan, r: Run)
    requires Disciplined(plan, r)
    ensures Emissions(plan, r, ForceReset) == if At(plan, r).ctx.spent.resetForced then 1 else 0
  {
    hide At, LastStep, Good, Course, Grounds, Expects;
    match r
    case Begin(targets) => BeginsIdle(plan, targets);
    case Then(before, event, now) =>
      ForceResetOnce(plan, before);
      Stepped(plan, r);
  }

  // --- The report is true -------------------------------------------------------------------------

  /** The table of the latest event that carried one before the update ended. */
  function LastTable(plan: Plan, r: Run): Option<SlotTable> {
    match r
    case Begin(_) => None
    case Then(before, event, _) =>
      if CarriesTable(event) && !IsTerminal(At(plan, before).state) then event.table else LastTable(plan, before)
  }

  /** The machine's slot table is always the last one read. */
  lemma {:induction false} DeviceIsLastTable(plan: Plan, r: Run)
    requires Disciplined(plan, r)
    ensures At(plan, r).ctx.device == LastTable(plan, r)
  {
    hide At, LastStep, Good, Course, Grounds;
    match r
    case Begin(targets) => BeginsIdle(plan, targets);
    case Then(before, event, now) =>
      DeviceIsLastTable(plan, before);
      Stepped(plan, r);
  }

  /** Some table read in the run shows every `Client` image active on its target and confirmed. */
  predicate ShowedClientsKept(r: Run, targets: seq<Image>) {
    r.Then? && ((CarriesTable(r.event) && r.event.table.Some? && AllClientsKept(r.event.table.value, targets))
                || ShowedClientsKept(r.before, targets))
  }

  lemma {:induction false} LastTableShows(plan: Plan, r: Run, targets: seq<Image>)
    requires LastTable(plan, r).Some? && AllClientsKept(LastTable(plan, r).value, targets)
    ensures ShowedClientsKept(r, targets)
  {
    hide At, AllClientsKept;
    if r.Then? && !(CarriesTable(r.event) && !IsTerminal(At(plan, r.before).state)) {
      LastTableShows(plan, r.before, targets);
    }
  }

  lemma {:induction false} ShowedAlike(r: Run, c: Context, d: Context)
    requires ShowedClientsKept(r, c.targets) && SameTargets(c, d)
    ensures ShowedClientsKept(r, d.targets)
  {
    hide AllClientsKept, SameTargets;
    if CarriesTable(r.event) && r.event.table.Some? && AllClientsKept(r.event.table.value, c.targets) {
      SameTargetsSameTables(c, d, r.event.table.value);
    } else {
      ShowedAlike(r.before, c, d);
    }
  }

  /** Past the first read, the machine has a table. */
  lemma {:induction false} NeverBlind(plan: Plan, r: Run)
    requires Disciplined(plan, r)
    ensures Blind(At(plan, r).state) || At(plan, r).ctx.device.Some?
  {
    hide At, LastStep, Grounds, Invariant, TimersFit, Outstanding;
    match r
    case Begin(targets) => BeginsIdle(plan, targets);
    case Then(before, event, now) =>
      NeverBlind(plan, before);
      Stepped(plan, r);
  }

  /** Where nothing is owed to the `Client` images, some table of the run showed that they are kept. */
  lemma {:induction false} SettledOnEvidence(plan: Plan, r: Run)
    requires Disciplined(plan, r) && !plan.mode.UploadOnly?
    ensures var m := At(plan, r);
            Settled(m.state, m.ctx) ==> WithoutSetState(m.ctx) || ShowedClientsKept(r, m.ctx.targets)
  {
    hide At, LastStep, Good, Course, AllClientsKept, AllDevicesKept, AllDevicesRun, TrialsRun;
    match r
    case Begin(targets) => BeginsIdle(plan, targets);
    case Then(before, event, now) =>
      SettledOnEvidence(plan, before);
      Stepped(plan, r);
      var b, m := At(plan, before), At(plan, r);
      if Settled(m.state, m.ctx) && !WithoutSetState(m.ctx) && !IsTerminal(b.state) {
        if Settled(b.state, b.ctx) {
          ShowedAlike(before, b.ctx, m.ctx);
        } else {
          NeverBlind(plan, r);
          DeviceIsLastTable(plan, r);
          LastTableShows(plan, r, m.ctx.targets);
        }
      }
  }

  lemma {:induction false} CompletedDevicesKept(plan: Plan, r: Run)
    requires Disciplined(plan, r) && !plan.mode.UploadOnly? && At(plan, r).state.Completed?
    ensures AllDevicesKept(Table(At(plan, r).ctx), At(plan, r).ctx.targets)
  {
    hide At, LastStep, Good, Course, Frame, AllClientsKept, AllDevicesKept, AllDevicesRun, TrialsRun, Table;
    match r
    case Begin(targets) => BeginsIdle(plan, targets);
    case Then(before, event, now) =>
      Stepped(plan, r);
      if IsTerminal(At(plan, before).state) {
        CompletedDevicesKept(plan, before);
      }
  }

  /**
    Success is reported truthfully: the last table read, which is the one reported, shows every
    `Device` image active on its target and confirmed, and some table of the run showed the same of
    every `Client` image, unless the mode cannot confirm anything.
   */
  lemma CompletedIsTrue(plan: Plan, r: Run)
    requires Disciplined(plan, r) && !plan.mode.UploadOnly? && At(plan, r).state.Completed?
    ensures var m := At(plan, r);
            && m.ending.finalState.Completed?
            && m.ending.finalDeviceState.Some? && m.ending.finalDeviceState == LastTable(plan, r)
            && AllDevicesKept(m.ending.finalDeviceState.value, m.ctx.targets)
            && (m.ctx.mode.mode.DirectXip? || ShowedClientsKept(r, m.ctx.targets))
  {
    hide At, AllDevicesKept, Summarised, TimersFit, Invariant, ShowedClientsKept;
    RunGood(plan, r);
    CompletedDevicesKept(plan, r);
    SettledOnEvidence(plan, r);
    DeviceIsLastTable(plan, r);
    NeverBlind(plan, r);
  }

  /** A reset has been asked for, and no table has been judged since. */
  predicate ResetUnjudged(plan: Plan, r: Run) {
    r.Then? && (|| LastStep(plan, r).effect.Reset? || LastStep(plan, r).effect.ForceReset?
                || (ResetUnjudged(plan, r.before) && !Judges(At(plan, r.before).state, r.event)))
  }

  /** An update that ends between its reset and the check of what came up reports a pending revert. */
  lemma {:induction false} UnjudgedResetReverts(plan: Plan, r: Run)
    requires Disciplined(plan, r) && ResetUnjudged(plan, r)
    ensures var m := At(plan, r);
            if IsTerminal(m.state) then (m.state.Failed? || m.state.Cancelled?) && m.ctx.verdict.revertPending
            else Unjudged(m.state, m.ctx)
  {
    hide At, LastStep, Good, Frame, Grounds, Expects;
    Stepped(plan, r);
    if LastStep(plan, r).effect.Reset? || LastStep(plan, r).effect.ForceReset? {
      ResettingScheduled(plan, Blamed(r), At(plan, r), Outstanding(plan, r), LastStep(plan, r).effect);
    } else {
      UnjudgedResetReverts(plan, r.before);
    }
  }

  lemma ResettingScheduled(plan: Plan, blamed: bool, m: MachineState, outstanding: Effect, effect: Effect)
    requires Good(plan, blamed, m, outstanding) && Expects(m.state, effect) && (effect.Reset? || effect.ForceReset?)
    ensures Unjudged(m.state, m.ctx) && !IsTerminal(m.state)
  {
    hide TimersFit;
  }

  /** So does one that ends with an image still on trial. */
  lemma TrialReverts(plan: Plan, r: Run, k: nat)
    requires Disciplined(plan, r) && (At(plan, r).state.Failed? || At(plan, r).state.Cancelled?)
    requires k < |At(plan, r).ctx.targets| && At(plan, r).ctx.targets[k].inTrial
    ensures At(plan, r).ctx.verdict.revertPending
  {
    hide At, TimersFit;
    RunGood(plan, r);
  }

  // --- Confirming comes last ----------------------------------------------------------------------

  /** The table on which the machine last left planning or the check after a boot. */
  function BootTable(plan: Plan, r: Run): SlotTable {
    if r.Begin? then []
    else if Inspects(At(plan, r.before).state, At(plan, r).state) then Table(At(plan, r).ctx)
    else BootTable(plan, r.before)
  }

  /** The table held when it last left those, or `AwaitingDeviceApply`. */
  function ApplyTable(plan: Plan, r: Run): SlotTable {
    if r.Begin? then []
    else if Inspects(At(plan, r.before).state, At(plan, r).state)
         || (At(plan, r.before).state.AwaitingDeviceApply? && !At(plan, r).state.AwaitingDeviceApply?) then
            Table(At(plan, r).ctx)
    else ApplyTable(plan, r.before)
  }

  /** While the update runs, what is on trial ran unconfirmed in the last boot table. */
  lemma {:induction false} TrialsInBootTable(plan: Plan, r: Run)
    requires Disciplined(plan, r) && !IsTerminal(At(plan, r).state)
    ensures TrialsRun(BootTable(plan, r), At(plan, r).ctx.targets)
  {
    hide At, LastStep, Good, Course, AllClientsKept, AllDevicesKept, AllDevicesRun, Table, RunningOnTrial;
    match r
    case Begin(targets) => BeginsIdle(plan, targets);
    case Then(before, event, now) =>
      Stepped(plan, r);
      var b, m := At(plan, before), At(plan, r);
      if !IsTerminal(b.state) && !Inspects(b.state, m.state) {
        TrialsInBootTable(plan, before);
        if b.state.Planning? {
          NoTrialsPlanning(plan, Blamed(r), b, Outstanding(plan, before));
        }
      }
  }

  lemma NoTrialsPlanning(plan: Plan, blamed: bool, m: MachineState, outstanding: Effect)
    requires Good(plan, blamed, m, outstanding) && m.state.Planning?
    ensures forall k :: 0 <= k < |m.ctx.targets| ==> !m.ctx.targets[k].inTrial
  {
    hide TimersFit;
  }

  lemma {:induction false} DevicesInApplyTable(plan: Plan, r: Run)
    requires Disciplined(plan, r) && AtConfirm(At(plan, r).state)
    ensures AllDevicesRun(ApplyTable(plan, r), At(plan, r).ctx.targets)
  {
    hide At, LastStep, Good, Course, AllClientsKept, AllDevicesKept, AllDevicesRun, Table, TrialsRun;
    match r
    case Begin(targets) => BeginsIdle(plan, targets);
    case Then(before, event, now) =>
      Stepped(plan, r);
      var b, m := At(plan, before), At(plan, r);
      if AtConfirm(b.state) {
        DevicesInApplyTable(plan, before);
        SameTargetsSameTables(b.ctx, m.ctx, ApplyTable(plan, before));
      }
  }

  /** A mark or a confirm names the current target. */
  lemma NamesTheCurrent(plan: Plan, m: MachineState, event: Event, now: int)
    requires var effect := ApplyEvent(plan, m, event, now).1.effect; effect.MarkForTest? || effect.Confirm?
    ensures var r := ApplyEvent(plan, m, event, now);
            && r.0.ctx.current < |r.0.ctx.targets|
            && r.1.image == r.0.ctx.targets[r.0.ctx.current].target.image
            && r.1.hash == r.0.ctx.targets[r.0.ctx.current].target.hash
  {
    hide Decide, Decidable, KeepTime, Summarised;
  }

  /**
    A confirm names an image whose target ran unconfirmed in the last table the boot was judged by,
    and is sent only once a judged table had every `Device` image running its target.
   */
  lemma ConfirmComesLast(plan: Plan, r: Run)
    requires Disciplined(plan, r) && r.Then? && LastStep(plan, r).effect.Confirm?
    ensures var m := At(plan, r);
            var step := LastStep(plan, r);
            && m.ctx.current < |m.ctx.targets|
            && var target := m.ctx.targets[m.ctx.current].target;
               && step.image == target.image && step.hash == target.hash
               && RunningOnTrial(BootTable(plan, r), target)
               && AllDevicesRun(ApplyTable(plan, r), m.ctx.targets)
  {
    hide ApplyEvent, Good, Transition, AllDevicesRun, RunningOnTrial, BootTable, ApplyTable;
    Stepped(plan, r);
    NamesTheCurrent(plan, At(plan, r.before), r.event, r.now);
    ConfirmingTrial(plan, Blamed(r), At(plan, r), Outstanding(plan, r));
    TrialsInBootTable(plan, r);
    DevicesInApplyTable(plan, r);
  }

  lemma ConfirmingTrial(plan: Plan, blamed: bool, m: MachineState, outstanding: Effect)
    requires Good(plan, blamed, m, outstanding) && m.state.Confirming?
    ensures m.ctx.current < |m.ctx.targets| && m.ctx.targets[m.ctx.current].inTrial
  {
    hide TimersFit;
  }

  // --- Deadlines survive reconnects ---------------------------------------------------------------

  /** When the wait the machine's deadline belongs to began: the last time the wait phase changed. */
  function PhaseSince(plan: Plan, r: Run): int {
    if r.Begin? then 0
    else if At(plan, r).timers.phase != At(plan, r.before).timers.phase then r.now
    else PhaseSince(plan, r.before)
  }

  lemma KeepTimeDeadline(plan: Plan, m: MachineState, event: Event, now: int)
    ensures var after := ApplyEvent(plan, m, event, now).0.timers;
            && (after.phase == m.timers.phase && after.phase.Some? ==> after.deadline == m.timers.deadline)
            && (after.phase != m.timers.phase && after.phase.Some? ==> after.deadline == Some(now + plan.applyTimeout))
  {
    hide Decide, Decidable, Summarised, Guarded;
  }

  /** However often the link drops and comes back, a wait keeps the deadline it began with. */
  lemma {:induction false} DeadlineSurvives(plan: Plan, r: Run)
    requires At(plan, r).timers.phase.Some?
    ensures At(plan, r).timers.deadline == Some(PhaseSince(plan, r) + plan.applyTimeout)
  {
    hide ApplyEvent;
    if r.Begin? {
    } else {
      KeepTimeDeadline(plan, At(plan, r.before), r.event, r.now);
      if At(plan, r).timers.phase == At(plan, r.before).timers.phase {
        DeadlineSurvives(plan, r.before);
      }
    }
  }

  /** A tick asks for a read only before the deadline. */
  lemma TickReadsInTime(plan: Plan, r: Run)
    requires Disciplined(plan, r) && r.Then? && r.event.Tick? && LastStep(plan, r).effect.ReadState?
    ensures At(plan, r.before).timers.deadline.Some? && r.now < At(plan, r.before).timers.deadline.value
  {
    hide At, Invariant, Advance;
    RunGood(plan, r.before);
    var b := At(plan, r.before);
    if IsTerminal(b.state) {
      TerminalAbsorbs(plan, Blamed(r.before), b, Outstanding(plan, r.before), r.event, r.now);
    } else {
      GuardsPass(plan, Blamed(r.before), b, Outstanding(plan, r.before), r.event, r.now);
      hide Guarded, Decide;
    }
  }

  /** At most one of the two short deadlines is armed, each only in the state that waits on it. */
  lemma TimersArmedWhereAwaited(plan: Plan, r: Run)
    requires Disciplined(plan, r)
    ensures var m := At(plan, r);
            && (m.timers.grace.Some? ==> m.state.AwaitingDisconnect?)
            && (m.timers.poll.Some? ==> Waiting(m.state) && m.timers.deadline.Some? && m.timers.phase == Some(m.state))
            && !(m.timers.grace.Some? && m.timers.poll.Some?)
  {
    hide At, Good, Outstanding, Disciplined;
    RunGood(plan, r);
    TimersArmed(plan, Blamed(r), At(plan, r), Outstanding(plan, r));
  }

  lemma TimersArmed(plan: Plan, blamed: bool, m: MachineState, outstanding: Effect)
    requires Good(plan, blamed, m, outstanding)
    ensures m.timers.grace.Some? ==> m.state.AwaitingDisconnect?
    ensures m.timers.poll.Some? ==> Waiting(m.state) && m.timers.deadline.Some? && m.timers.phase == Some(m.state)
  {
    hide Invariant, Summarised;
  }

  // --- Recoveries and planning make progress ------------------------------------------------------

  /** The targets whose mark was refused and retried, in order. */
  function Recoveries(plan: Plan, r: Run): seq<nat> {
    if r.Begin? then []
    else if At(plan, r.before).state.MarkingForTest? && At(plan, r).state.InspectingImages? then
      Recoveries(plan, r.before) + [At(plan, r.before).ctx.current]
    else Recoveries(plan, r.before)
  }

  predicate Increasing(s: seq<nat>) {
    forall i, j :: 0 <= i < j < |s| ==> s[i] < s[j]
  }

  /** A target's mark is retried at most once, and targets are worked through in order. */
  lemma {:induction false} RecoveriesIncrease(plan: Plan, r: Run)
    requires Disciplined(plan, r)
    ensures var seen := Recoveries(plan, r);
            && Increasing(seen)
            && (|seen| > 0 && PreBoot(At(plan, r).state, At(plan, r).ctx) ==>
                var last := seen[|seen| - 1];
                last <= At(plan, r).ctx.current && (last == At(plan, r).ctx.current ==>
                                                    At(plan, r).ctx.spent.markRetried))
  {
    hide At, LastStep, Good, Frame, Grounds;
    match r
    case Begin(targets) =>
    case Then(before, event, now) =>
      RecoveriesIncrease(plan, before);
      Stepped(plan, r);
      var b, m := At(plan, before), At(plan, r);
      var seen := Recoveries(plan, before);
      if b.state.MarkingForTest? && m.state.InspectingImages? {
        assert m.ctx.current == b.ctx.current && m.ctx.spent.markRetried;
        assert |seen| > 0 ==> seen[|seen| - 1] < b.ctx.current;
        assert Increasing(seen + [b.ctx.current]);
      }
  }

  /** A planning step that hands over to another planning step has moved to a later target, which exists. */
  lemma ContinueAdvances(plan: Plan, r: Run)
    requires Disciplined(plan, r) && r.Then? && At(plan, r.before).state.Planning? && LastStep(plan, r).effect.Continue?
    ensures At(plan, r.before).ctx.current < At(plan, r).ctx.current < |At(plan, r).ctx.targets|
    ensures |At(plan, r).ctx.targets| == |At(plan, r.before).ctx.targets|
  {
    hide At, LastStep, Grounds, TimersFit;
    Stepped(plan, r);
  }
}
