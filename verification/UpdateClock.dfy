/**
  What an update hands out and sums up: the data a step carries, the times at which it wakes, the totals over
  its images, and the ending.
 */
module UpdateClock {
  import opened Common
  import opened UpdateTypes
  import opened UpdateMachine
  import opened UpdateInvariant
  import opened UpdateSteps
  import opened UpdateRuns
  import opened UpdateTheorems
  import opened UpdateRecovery
  import opened UpdateVerdicts
  import opened UpdateRecord

  // --- Steps ---------------------------------------------------------------------------------------

  /** An upload names the current target, the build settled on, the image and the buffer size the device told. */
  lemma UploadCarries(plan: Plan, r: Run)
    requires Disciplined(plan, r) && r.Then? && LastStep(plan, r).effect.StartUpload?
    ensures var c, step := At(plan, r).ctx, LastStep(plan, r);
            && c.current < |c.targets| && step.target == c.current
            && step.build == c.targets[c.current].chosen && step.image == c.targets[c.current].target.image
            && step.bufSize == BufferTold(plan, r)
  {
    hide Decide, Decidable, KeepTime, Summarised, AboutTarget;
    ToldByEvents(plan, r);
  }

  // --- Times ---------------------------------------------------------------------------------------

  /** When the machine came into the state it is in. */
  function Entered(plan: Plan, r: Run): int {
    if r.Begin? then 0
    else if At(plan, r).state != At(plan, r.before).state then r.now
    else Entered(plan, r.before)
  }

  /** When the driver was last asked to wait for the device. */
  function WaitAsked(plan: Plan, r: Run): int {
    if r.Begin? then 0
    else if LastStep(plan, r).effect.AwaitApply? then r.now
    else WaitAsked(plan, r.before)
  }

  /** One event's effect on the two short deadlines. */
  predicate Rearmed(plan: Plan, b: MachineState, event: Event, now: int, m: MachineState, effect: Effect) {
    && m.timers.grace == (if effect.AwaitDisconnect? then Some(now + plan.disconnectGrace)
                          else if m.state.AwaitingDisconnect? then b.timers.grace else None)
    && (effect.AwaitApply? ==> m.timers.poll == Some(now + plan.applyPollInterval))
    && (effect.Nothing? && m.timers.poll.Some? ==> m.timers.poll == b.timers.poll)
  }

  lemma StepRearms(plan: Plan, r: Run)
    requires Disciplined(plan, r) && r.Then? && !IsTerminal(At(plan, r.before).state)
    ensures Rearmed(plan, At(plan, r.before), r.event, r.now, At(plan, r), LastStep(plan, r).effect)
  {
    hide At, LastStep, Disciplined, Decide, Decidable;
    Decided(plan, r);
  }

  /** Only the answer that asks for the wait leads into it, and nothing but time passes in it. */
  lemma DropAwaited(plan: Plan, r: Run)
    requires Disciplined(plan, r) && r.Then? && !IsTerminal(At(plan, r.before).state)
    requires At(plan, r).state.AwaitingDisconnect?
    ensures if At(plan, r.before).state.AwaitingDisconnect? then LastStep(plan, r).effect.Nothing?
            else LastStep(plan, r).effect.AwaitDisconnect?
  {
    hide At, LastStep, Disciplined, Transition, Good, DecideQuery, DecideBooted, PlanFromState, AfterUpload,
         UploadVerified, NextTarget;
    Decided(plan, r);
    Stepped(plan, r);
  }

  /** The wait for the drop ends `disconnectGrace` after the reset was accepted, or its answer lost. */
  lemma {:induction false} GraceTold(plan: Plan, r: Run)
    requires Disciplined(plan, r) && At(plan, r).state.AwaitingDisconnect?
    ensures At(plan, r).timers.grace == Some(Entered(plan, r) + plan.disconnectGrace)
  {
    hide At, LastStep, Good, Transition;
    match r
    case Begin(targets) => BeginsIdle(plan, targets);
    case Then(before, event, now) =>
      if IsTerminal(At(plan, before).state) {
        Stepped(plan, r);
      } else {
        StepRearms(plan, r);
        DropAwaited(plan, r);
        if At(plan, before).state.AwaitingDisconnect? {
          GraceTold(plan, before);
        }
      }
  }

  /** While the device is waited for, the next look falls due `applyPollInterval` after the wait was asked for. */
  lemma {:induction false} PollTold(plan: Plan, r: Run)
    requires Disciplined(plan, r)
    ensures Outstanding(plan, r).AwaitApply? ==>
              At(plan, r).timers.poll == Some(WaitAsked(plan, r) + plan.applyPollInterval)
    ensures !Outstanding(plan, r).AwaitApply? ==> At(plan, r).timers.poll == None
  {
    hide At, LastStep, Transition, Invariant, Summarised;
    RunGood(plan, r);
    match r
    case Begin(targets) =>
    case Then(before, event, now) =>
      PollTold(plan, before);
      if IsTerminal(At(plan, before).state) {
        Stepped(plan, r);
      } else {
        StepRearms(plan, r);
      }
  }

  /**
    Time: the wait for the drop ends in a reconnect once its grace is over; a wait for the device ends in a read
    once the poll is due, or in a timeout if by then the deadline has come. Otherwise nothing happens.
   */
  lemma TickRules(plan: Plan, r: Run)
    requires Disciplined(plan, r) && r.Then? && r.event.Tick? && !IsTerminal(At(plan, r.before).state)
    ensures var b, o := At(plan, r.before), Latest(plan, r);
            if b.state.AwaitingDisconnect? && r.now >= Entered(plan, r.before) + plan.disconnectGrace then
              o == Outcome(b.ctx, AwaitingReconnect, RequestReconnect)
            else if Outstanding(plan, r.before).AwaitApply?
                 && r.now >= WaitAsked(plan, r.before) + plan.applyPollInterval then
              if r.now >= PhaseSince(plan, r.before) + plan.applyTimeout then Fails(o, Timeout, b.ctx.swapScheduled)
              else o == Outcome(b.ctx, b.state, ReadState)
            else o == Outcome(b.ctx, b.state, Nothing)
  {
    hide At, LastStep, Latest, Invariant, Summarised, DecideQuery, DecideStaging, DecideBooted, Transition;
    var b := At(plan, r.before);
    LatestIs(plan, r);
    PollTold(plan, r.before);
    RunGood(plan, r.before);
    if b.state.AwaitingDisconnect? {
      GraceTold(plan, r.before);
    }
    if Waiting(b.state) {
      DeadlineSurvives(plan, r.before);
    }
  }

  // --- Totals and ending ---------------------------------------------------------------------------

  /** The octets transferred for the first `n` images. */
  function TotalTold(plan: Plan, r: Run, n: nat): nat {
    if n == 0 then 0 else TotalTold(plan, r, n - 1) + Transferred(plan, r, n - 1)
  }

  lemma {:induction false} TotalIs(plan: Plan, r: Run, targets: seq<Image>)
    requires forall k :: 0 <= k < |targets| ==> targets[k].report.bytesTransferred == Transferred(plan, r, k)
    ensures TotalTransferred(targets) == TotalTold(plan, r, |targets|)
  {
    hide Transferred;
    if targets == [] {
    } else {
      TotalIs(plan, r, targets[..|targets| - 1]);
    }
  }

  /** The totals: octets over all images, skipped if all are, rolled back if any is, and the slot of the first. */
  predicate SummedUp(summary: Summary, total: nat, targets: seq<Image>)
    requires targets != []
  {
    && summary.bytesTransferred == total
    && (summary.uploadSkipped <==> forall k :: 0 <= k < |targets| ==> targets[k].report.uploadSkipped)
    && (summary.rolledBack <==> exists k :: 0 <= k < |targets| && targets[k].report.rolledBack)
    && summary.uploadSlot == targets[0].report.uploadSlot
  }

  lemma SummaryOfStep(plan: Plan, m: MachineState, event: Event, now: int)
    ensures var after := ApplyEvent(plan, m, event, now).0;
            after.ctx.targets != [] ==> after.summary == Summarised(after.ctx.targets)
  {
    hide Guarded, KeepTime, Summarised;
  }

  lemma SomeTargets(plan: Plan, blamed: bool, m: MachineState, outstanding: Effect)
    requires Good(plan, blamed, m, outstanding)
    ensures m.ctx.targets != []
  {
    hide TimersFit;
  }

  /** The totals are those of the images' reports, and the octets those the events told. */
  lemma SummaryTold(plan: Plan, r: Run)
    requires Disciplined(plan, r) && r.Then?
    ensures var m := At(plan, r);
            m.ctx.targets != [] && SummedUp(m.summary, TotalTold(plan, r, |m.ctx.targets|), m.ctx.targets)
  {
    hide ApplyEvent, Good, AboutTarget;
    RunGood(plan, r);
    SomeTargets(plan, Blamed(r), At(plan, r), Outstanding(plan, r));
    SummaryOfStep(plan, At(plan, r.before), r.event, r.now);
    ToldByEvents(plan, r);
    TotalIs(plan, r, At(plan, r).ctx.targets);
  }

  /** An update that has ended reports how, the file of its first image and the last table; any other, nothing. */
  lemma {:induction false} EndingTold(plan: Plan, r: Run)
    requires Disciplined(plan, r)
    ensures var m := At(plan, r);
            if IsTerminal(m.state) then
              m.ctx.targets != []
              && m.ending == Ending(m.state, Some(m.ctx.targets[0].target.hash), LastTable(plan, r))
            else m.ending == Ending(Idle, None, None)
  {
    hide At, LastStep, Transition, Summarised;
    RunGood(plan, r);
    DeviceIsLastTable(plan, r);
    match r
    case Begin(targets) => BeginsBlank(plan, targets);
    case Then(before, event, now) =>
      EndingTold(plan, before);
      Stepped(plan, r);
      EndingOfStep(plan, r);
  }

  lemma BeginsBlank(plan: Plan, targets: seq<Target>)
    ensures At(plan, Begin(targets)).ending == Ending(Idle, None, None) && At(plan, Begin(targets)).state.Idle?
  {
  }

  lemma EndingOfStep(plan: Plan, r: Run)
    requires r.Then?
    ensures !LastStep(plan, r).effect.Finish? ==> At(plan, r).ending == At(plan, r.before).ending
  {
    hide Guarded, KeepTime, Summarised;
  }
}
