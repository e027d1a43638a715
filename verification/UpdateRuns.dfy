/**
  Whole runs of the update machine: what holds however the device, the link and the application
  behave, as long as every answer belongs to the request that is outstanding.
 */
module UpdateRuns {
  import opened UpdateTypes
  import opened UpdateMachine
  import opened UpdateInvariant

  /** A run: the targets the update begins with, then one event after another. */
  datatype Run = Begin(targets: seq<Target>) | Then(before: Run, event: Event, now: int)

  function At(plan: Plan, r: Run): MachineState {
    match r
    case Begin(targets) => Initial(targets)
    case Then(before, event, now) => ApplyEvent(plan, At(plan, before), event, now).0
  }

  /** The step the last event of the run led to. */
  function LastStep(plan: Plan, r: Run): Step
    requires r.Then?
  {
    ApplyEvent(plan, At(plan, r.before), r.event, r.now).1
  }

  function Outstanding(plan: Plan, r: Run): Effect {
    match r
    case Begin(_) => Nothing
    case Then(before, event, now) => Next(Outstanding(plan, before), LastStep(plan, r))
  }

  /** The driver answers only what is outstanding. */
  predicate Disciplined(plan: Plan, r: Run) {
    match r
    case Begin(targets) => targets != []
    case Then(before, event, now) => Disciplined(plan, before) && Answers(Outstanding(plan, before), event)
  }

  /** Some event of the run brought an error with the code `Internal`. */
  predicate Blamed(r: Run) {
    r.Then? && (BringsInternal(r.event) || Blamed(r.before))
  }

  lemma InitialGood(plan: Plan, targets: seq<Target>)
    requires targets != []
    ensures Good(plan, false, Initial(targets), Nothing)
  {
  }

  lemma BlameKept(plan: Plan, m: MachineState, outstanding: Effect)
    requires Good(plan, false, m, outstanding)
    ensures Good(plan, true, m, outstanding)
  {
  }

  /** A terminal state absorbs every event, disciplined or not: not a field changes. */
  lemma TerminalAbsorbs(plan: Plan, blamed: bool, m: MachineState, outstanding: Effect, event: Event, now: int)
    requires Good(plan, blamed, m, outstanding) && IsTerminal(m.state)
    ensures ApplyEvent(plan, m, event, now).0 == m
    ensures ApplyEvent(plan, m, event, now).1.effect.Nothing?
  {
  }

  lemma GuardsPass(plan: Plan, blamed: bool, m: MachineState, outstanding: Effect, event: Event, now: int)
    requires Good(plan, blamed, m, outstanding) && !IsTerminal(m.state)
    requires Answers(outstanding, event) && (BringsInternal(event) ==> blamed)
    ensures Decidable(m.state, event, m.ctx)
    ensures var o := Guarded(plan, m, event, now);
            && o == Decide(plan, m.state, event, now, m.timers, m.ctx)
            && Invariant(plan, blamed, o.next, o.ctx) && o.ctx.targets != []
            && (if event.Tick? then o == OnTick(m.state, now, m.timers, m.ctx) else Asks(o.next, o.effect))
            && (event.Cancel? ==> o.effect.Finish?)
  {
    hide DecideQuery, DecideStaging, DecideBooted;
    DecideKept(plan, blamed, m.state, event, now, m.timers, m.ctx, outstanding);
  }

  /** Once decided, an event keeps everything. */
  lemma AdvanceGood(plan: Plan, blamed: bool, m: MachineState, outstanding: Effect, event: Event, now: int, o: Outcome)
    requires Expects(m.state, outstanding) && TimersFit(m.state, outstanding, m.timers) && !IsTerminal(m.state)
    requires Answers(outstanding, event)
    requires Invariant(plan, blamed, o.next, o.ctx) && o.ctx.targets != []
    requires if event.Tick? then o == OnTick(m.state, now, m.timers, m.ctx) else Asks(o.next, o.effect)
    requires event.Cancel? ==> o.effect.Finish?
    ensures Good(plan, blamed, Advance(plan, m, event, now, o), if o.effect.Nothing? then outstanding else o.effect)
  {
    hide Invariant, TimersFit, Answers, KeepTime, OnTick;
    if event.Tick? {
      TickTimers(plan, m.state, outstanding, now, m.timers, m.ctx);
    } else {
      ReplyTimers(plan, m.state, outstanding, event, now, m.timers, o.next, o.effect);
    }
  }

  /** One event keeps everything. */
  lemma ApplyGood(plan: Plan, blamed: bool, m: MachineState, outstanding: Effect, event: Event, now: int)
    requires Good(plan, blamed, m, outstanding)
    requires Answers(outstanding, event) && (BringsInternal(event) ==> blamed)
    ensures var r := ApplyEvent(plan, m, event, now);
            Good(plan, blamed, r.0, Next(outstanding, r.1))
  {
    hide Guarded, Decide, Invariant, Answers, Asks, Advance, OnTick;
    if IsTerminal(m.state) {
      TerminalAbsorbs(plan, blamed, m, outstanding, event, now);
    } else {
      GuardsPass(plan, blamed, m, outstanding, event, now);
      AdvanceGood(plan, blamed, m, outstanding, event, now, Guarded(plan, m, event, now));
    }
  }

  lemma {:induction false} RunGood(plan: Plan, r: Run)
    requires Disciplined(plan, r)
    ensures Good(plan, Blamed(r), At(plan, r), Outstanding(plan, r))
  {
    match r
    case Begin(targets) => InitialGood(plan, targets);
    case Then(before, event, now) =>
      RunGood(plan, before);
      if Blamed(r) && !Blamed(before) {
        BlameKept(plan, At(plan, before), Outstanding(plan, before));
      }
      hide Good, ApplyEvent;
      ApplyGood(plan, Blamed(r), At(plan, before), Outstanding(plan, before), event, now);
  }
}
