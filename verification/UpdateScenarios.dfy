/**
  Runs of the update machine built event by event: two that show what its one recovery per refused mark
  does and does not cover.
 */
module UpdateScenarios {
  import opened Common
  import opened UpdateTypes
  import opened UpdateMachine
  import opened UpdateInvariant
  import opened UpdateRuns
  import opened UpdateTheorems
  import opened UpdateRecovery

  /** Where a run stands: its last decision, what is outstanding since, and the deadlines. */
  predicate On(plan: Plan, r: Run, o: Outcome, timers: Timers) {
    && Disciplined(plan, r) && Outstanding(plan, r) == o.effect
    && At(plan, r).state == o.next && At(plan, r).ctx == o.ctx && At(plan, r).timers == timers
  }

  /** One more event. */
  lemma Walk(plan: Plan, r: Run, from: Outcome, timers: Timers, event: Event, now: int, to: Outcome)
    requires On(plan, r, from, timers) && Answers(from.effect, event)
    requires !IsTerminal(from.next) && Decidable(from.next, event, from.ctx)
    requires Decide(plan, from.next, event, now, timers, from.ctx) == to
    requires !to.effect.Nothing? && (NamesCurrent(to.effect) ==> to.ctx.current < |to.ctx.targets|)
    ensures On(plan, Then(r, event, now), to, TimersAfter(plan, from.next, event, now, timers, to.next, to.effect))
    ensures !from.next.MarkingForTest? ==> Recoveries(plan, Then(r, event, now)) == Recoveries(plan, r)
    ensures LastStep(plan, Then(r, event, now)).effect == to.effect
  {
    hide Decide, Answers, Decidable, Summarised, KeepTime;
  }

  // --- Opening ------------------------------------------------------------------------------------

  const OPENING_MODE := ModeRecord(SwapUsingMove, Reported)

  /** The run up to the first slot table, on a device that swaps. */
  function Opening(targets: seq<Target>, t: SlotTable): Run {
    var asked := Then(Begin(targets), Start, 0);
    var modest := Then(asked, ParametersUnavailable, 0);
    Then(Then(modest, BootloaderRead(SwapUsingMove, false), 0), StateRead(Some(t)), 0)
  }

  /** The context it leads to. */
  function Opened(targets: seq<Target>, t: SlotTable): Context {
    Initial(targets).ctx.(mode := OPENING_MODE, device := Some(t))
  }

  const NO_TIMERS := Timers(None, None, None, None)

  lemma BeginsAsking(plan: Plan, targets: seq<Target>, r: Run)
    requires targets != [] && On(plan, r, Outcome(Initial(targets).ctx, Idle, Nothing), NO_TIMERS)
    ensures var c := Initial(targets).ctx;
            On(plan, Then(Then(r, Start, 0), ParametersUnavailable, 0),
               Outcome(c, QueryingBootloader, QueryBootloader), NO_TIMERS)
    ensures Recoveries(plan, Then(Then(r, Start, 0), ParametersUnavailable, 0)) == Recoveries(plan, r)
  {
    hide On, DecideStaging, DecideBooted, Recoveries, LastStep;
    var c := Initial(targets).ctx;
    var asked := Outcome(c, QueryingParameters, QueryParameters);
    Walk(plan, r, Outcome(c, Idle, Nothing), NO_TIMERS, Start, 0, asked);
    Walk(plan, Then(r, Start, 0), asked, NO_TIMERS, ParametersUnavailable, 0,
         Outcome(c, QueryingBootloader, QueryBootloader));
  }

  /** The run up to the first slot table leads to planning. */
  lemma Opens(plan: Plan, targets: seq<Target>, t: SlotTable)
    requires targets != []
    ensures On(plan, Opening(targets, t), Outcome(Opened(targets, t), Planning, Continue), NO_TIMERS)
    ensures Recoveries(plan, Opening(targets, t)) == []
  {
    hide On, Initial, DecideStaging, DecideBooted, Recoveries, LastStep;
    BeginsOn(plan, targets);
    var c := Initial(targets).ctx;
    BeginsAsking(plan, targets, Begin(targets));
    var r := Then(Then(Begin(targets), Start, 0), ParametersUnavailable, 0);
    var known := Outcome(c.(mode := OPENING_MODE), InspectingImages, ReadState);
    Walk(plan, r, Outcome(c, QueryingBootloader, QueryBootloader), NO_TIMERS, BootloaderRead(SwapUsingMove, false),
         0, known);
    var q := Then(r, BootloaderRead(SwapUsingMove, false), 0);
    Walk(plan, q, known, NO_TIMERS, StateRead(Some(t)), 0, Outcome(Opened(targets, t), Planning, Continue));
  }

  lemma BeginsOn(plan: Plan, targets: seq<Target>)
    requires targets != []
    ensures On(plan, Begin(targets), Outcome(Initial(targets).ctx, Idle, Nothing), NO_TIMERS)
    ensures |Initial(targets).ctx.targets| == |targets| && !Initial(targets).ctx.noDowngrade
    ensures Recoveries(plan, Begin(targets)) == []
  {
  }

  // --- Two client images, present and to be marked ------------------------------------------------

  /** Two images the client commits, told apart, with one file each. */
  predicate TwoClients(a: Target, b: Target) {
    && a.image != b.image && a.hash != [] && b.hash != []
    && a.commit.Client? && b.commit.Client? && a.builds.None? && b.builds.None?
  }

  /** A plan that marks what is already there, and refuses nothing on account of versions. */
  predicate Willing(plan: Plan) {
    plan.skipIfPresent && !plan.mode.UploadOnly? && !plan.checkDowngrade
  }

  function Row(image: nat, slot: nat, hash: Option<Hash>, pending: bool): ImageSlot {
    ImageSlot(image, slot, None, hash, pending, hash.None?, hash.None?)
  }

  /** Each image runs something else and has its file in its other slot; the first may be marked already. */
  function Present(a: Target, b: Target, marked: bool): SlotTable {
    [Row(a.image, 0, None, false), Row(a.image, 1, Some(a.hash), marked),
     Row(b.image, 2, None, false), Row(b.image, 3, Some(b.hash), false)]
  }

  lemma PresentFound(a: Target, b: Target, marked: bool)
    requires TwoClients(a, b)
    ensures var t := Present(a, b, marked);
            && Active(t, a.image) == 0 && Holder(t, a) == 1 && Active(t, b.image) == 2 && Holder(t, b) == 3
            && !Runs(t, a) && !Runs(t, b)
  {
    var t := Present(a, b, marked);
    assert t[0].image == a.image && t[0].active && t[1].image == a.image && Holds(t[1], a) && !Holds(t[0], a);
    assert t[2].image == b.image && t[2].active && t[3].image == b.image && Holds(t[3], b) && !Holds(t[2], b);
  }

  /** The machine works on the two, on a device that swaps. */
  predicate Works(c: Context, a: Target, b: Target, current: nat, retried: bool, t: SlotTable) {
    && |c.targets| == 2 && c.targets[0].target == a && c.targets[1].target == b
    && c.current == current && c.spent.markRetried == retried && c.device == Some(t) && c.mode == OPENING_MODE
  }

  lemma NeedsMark(plan: Plan, a: Target, b: Target, marked: bool, entry: ImageReport)
    requires TwoClients(a, b) && Willing(plan)
    ensures var t := Present(a, b, marked);
            && NeedOf(plan, t, b, entry) == Mark(3)
            && NeedOf(plan, t, a, entry)
               == if marked then Skip(entry.(uploadSkipped := true, uploadSlot := Some(1)), true) else Mark(1)
  {
    hide Active, Holder;
    PresentFound(a, b, marked);
  }

  /** The current image's file is there: it is to be marked. */
  lemma PlanMarks(plan: Plan, c: Context, a: Target, b: Target, marked: bool)
    requires TwoClients(a, b) && Willing(plan) && c.current < 2 && (marked ==> c.current == 1)
    requires Works(c, a, b, c.current, c.spent.markRetried, Present(a, b, marked))
    ensures var o := PlanFrom(plan, c);
            && o.next.MarkingForTest? && o.effect.MarkForTest?
            && Works(o.ctx, a, b, c.current, c.spent.markRetried, Present(a, b, marked))
  {
    hide NeedOf, Present, PlanMark, Willing, PlanUpload, Staged, SkipCurrent;
    NeedsMark(plan, a, b, marked, c.targets[c.current].report);
    MarkStands(plan, c, a, b, Present(a, b, marked), if c.current == 0 then 1 else 3);
  }

  lemma MarkStands(plan: Plan, c: Context, a: Target, b: Target, t: SlotTable, slot: nat)
    requires Willing(plan) && c.current < 2 && Works(c, a, b, c.current, c.spent.markRetried, t)
    ensures var o := PlanMark(plan, c, slot);
            && o.next.MarkingForTest? && o.effect.MarkForTest?
            && Works(o.ctx, a, b, c.current, c.spent.markRetried, t)
  {
  }

  lemma NotAfterReset(c: Context, a: Target, b: Target, marked: bool)
    requires TwoClients(a, b) && Works(c, a, b, c.current, c.spent.markRetried, Present(a, b, marked))
    ensures !AfterReset(c)
  {
    hide Present, Runs;
    PresentFound(a, b, marked);
  }

  lemma PlansMark(plan: Plan, c: Context, a: Target, b: Target, marked: bool)
    requires TwoClients(a, b) && Willing(plan) && c.current < 2
    requires Works(c, a, b, c.current, c.spent.markRetried, Present(a, b, marked))
    ensures var o := PlanFromState(plan, c);
            && o.next.MarkingForTest? && o.effect.MarkForTest?
            && Works(o.ctx, a, b, if marked then 1 else c.current, c.spent.markRetried, Present(a, b, marked))
  {
    NotAfterReset(c, a, b, marked);
    hide AfterReset, NeedOf, Present, PlanMark;
    if marked && c.current == 0 {
      var entry := c.targets[0].report;
      NeedsMark(plan, a, b, marked, entry);
      var skipped := Skip(entry.(uploadSkipped := true, uploadSlot := Some(1)), true);
      PlanMarks(plan, SkipCurrent(c, skipped), a, b, marked);
    } else {
      PlanMarks(plan, c, a, b, marked);
    }
  }

  // --- Two runs -----------------------------------------------------------------------------------

  /** What the run asks for now, about which image, with the recovery spent or not, on which table. */
  datatype Stop = Stop(state: UpdateState, effect: Effect, current: nat, retried: bool, marked: bool)

  predicate StandsAt(plan: Plan, r: Run, a: Target, b: Target, stop: Stop) {
    && TwoClients(a, b) && Willing(plan) && Disciplined(plan, r)
    && At(plan, r).state == stop.state && Outstanding(plan, r) == stop.effect
    && Works(At(plan, r).ctx, a, b, stop.current, stop.retried, Present(a, b, stop.marked))
  }

  /** A decision takes such a run one event further. */
  lemma Steps(plan: Plan, r: Run, a: Target, b: Target, from: Stop, event: Event, to: Stop)
    requires StandsAt(plan, r, a, b, from) && Answers(from.effect, event) && !IsTerminal(from.state)
    requires var c := At(plan, r).ctx;
             && Decidable(from.state, event, c)
             && var o := Decide(plan, from.state, event, 0, At(plan, r).timers, c);
                && o.next == to.state && o.effect == to.effect && !o.effect.Nothing? && to.current < 2
                && Works(o.ctx, a, b, to.current, to.retried, Present(a, b, to.marked))
    ensures StandsAt(plan, Then(r, event, 0), a, b, to)
  {
    var m := At(plan, r);
    var o := Decide(plan, from.state, event, 0, m.timers, m.ctx);
    hide At, Decide, Answers, Decidable, Works, TwoClients;
    WorksWithin(o.ctx, a, b, to);
    Walk(plan, r, Outcome(m.ctx, m.state, from.effect), m.timers, event, 0, o);
  }

  lemma WorksWithin(c: Context, a: Target, b: Target, stop: Stop)
    requires Works(c, a, b, stop.current, stop.retried, Present(a, b, stop.marked)) && stop.current < 2
    ensures c.current < |c.targets|
  {
  }

  lemma PlanningDecides(plan: Plan, timers: Timers, c: Context)
    requires Decidable(Planning, Proceed, c)
    ensures Decide(plan, Planning, Proceed, 0, timers, c) == PlanFromState(plan, c)
  {
  }

  lemma Plans(plan: Plan, r: Run, a: Target, b: Target, current: nat, retried: bool, marked: bool)
    requires StandsAt(plan, r, a, b, Stop(Planning, Continue, current, retried, marked)) && current < 2
    ensures StandsAt(plan, Then(r, Proceed, 0), a, b,
                Stop(MarkingForTest, MarkForTest, if marked then 1 else current, retried, marked))
    ensures Recoveries(plan, Then(r, Proceed, 0)) == Recoveries(plan, r)
  {
    var from := Stop(Planning, Continue, current, retried, marked);
    var to := Stop(MarkingForTest, MarkForTest, if marked then 1 else current, retried, marked);
    hide PlanFromState, At, Outstanding, Disciplined, Decide, Present, Willing, TwoClients;
    PlansMark(plan, At(plan, r).ctx, a, b, marked);
    PlanningDecides(plan, At(plan, r).timers, At(plan, r).ctx);
    Steps(plan, r, a, b, from, Proceed, to);
  }

  /** The group-less refusal that a lost answer explains. */
  const BAD_STATE := Error(ProtocolError, Some(MgmtError(GROUP_OS, SMP_BAD_STATE, false)))

  lemma Recovers(plan: Plan, r: Run, a: Target, b: Target, current: nat, marked: bool)
    requires StandsAt(plan, r, a, b, Stop(MarkingForTest, MarkForTest, current, false, marked)) && current < 2
    ensures StandsAt(plan, Then(r, Failure(BAD_STATE), 0), a, b,
                     Stop(InspectingImages, ReadState, current, true, marked))
    ensures Recoveries(plan, Then(r, Failure(BAD_STATE), 0)) == Recoveries(plan, r) + [current]
  {
    hide At, Outstanding, Disciplined;
    Steps(plan, r, a, b, Stop(MarkingForTest, MarkForTest, current, false, marked), Failure(BAD_STATE),
          Stop(InspectingImages, ReadState, current, true, marked));
  }

  lemma Rereads(plan: Plan, r: Run, a: Target, b: Target, current: nat, marked: bool)
    requires StandsAt(plan, r, a, b, Stop(InspectingImages, ReadState, current, true, false)) && current < 2
    ensures var event := StateRead(Some(Present(a, b, marked)));
            && StandsAt(plan, Then(r, event, 0), a, b, Stop(Planning, Continue, current, true, marked))
            && Recoveries(plan, Then(r, event, 0)) == Recoveries(plan, r)
  {
    hide At, Outstanding, Disciplined, Present;
    Steps(plan, r, a, b, Stop(InspectingImages, ReadState, current, true, false),
          StateRead(Some(Present(a, b, marked))), Stop(Planning, Continue, current, true, marked));
  }

  lemma Answered(plan: Plan, r: Run, a: Target, b: Target)
    requires StandsAt(plan, r, a, b, Stop(MarkingForTest, MarkForTest, 0, true, false))
    ensures var event := MarkedForTest(Some(Present(a, b, true)));
            && StandsAt(plan, Then(r, event, 0), a, b, Stop(Planning, Continue, 1, false, true))
            && Recoveries(plan, Then(r, event, 0)) == Recoveries(plan, r)
  {
    hide At, Outstanding, Disciplined, Present;
    Steps(plan, r, a, b, Stop(MarkingForTest, MarkForTest, 0, true, false),
          MarkedForTest(Some(Present(a, b, true))), Stop(Planning, Continue, 1, false, true));
  }

  /** Up to the first refused mark. */
  function FirstRefusal(a: Target, b: Target): Run {
    Then(Then(Opening([a, b], Present(a, b, false)), Proceed, 0), Failure(BAD_STATE), 0)
  }

  lemma Refused(plan: Plan, a: Target, b: Target)
    requires TwoClients(a, b) && Willing(plan)
    ensures StandsAt(plan, FirstRefusal(a, b), a, b, Stop(InspectingImages, ReadState, 0, true, false))
    ensures Recoveries(plan, FirstRefusal(a, b)) == [0]
  {
    hide StandsAt, Recoveries, Opening, TwoClients, Willing;
    var r := Opening([a, b], Present(a, b, false));
    OpensStanding(plan, a, b);
    Plans(plan, r, a, b, 0, false, false);
    Recovers(plan, Then(r, Proceed, 0), a, b, 0, false);
  }

  lemma OpensStanding(plan: Plan, a: Target, b: Target)
    requires TwoClients(a, b) && Willing(plan)
    ensures var r := Opening([a, b], Present(a, b, false));
            StandsAt(plan, r, a, b, Stop(Planning, Continue, 0, false, false)) && Recoveries(plan, r) == []
  {
    hide At, Outstanding, Disciplined, Present, Recoveries, Opening, TwoClients, Willing;
    Opens(plan, [a, b], Present(a, b, false));
  }

  /**
    The recovery is not one per update: in this run the first image's mark is refused, tried again and
    answered, and then the second image's mark is refused and tried again as well.
   */
  lemma TwoRecoveries(plan: Plan, a: Target, b: Target) returns (r: Run)
    requires TwoClients(a, b) && Willing(plan)
    ensures Disciplined(plan, r) && Recoveries(plan, r) == [0, 1] && At(plan, r).state.InspectingImages?
  {
    hide At, Outstanding, Disciplined, Present, Recoveries, TwoClients, Willing;
    Refused(plan, a, b);
    r := FirstRefusal(a, b);
    Rereads(plan, r, a, b, 0, false);
    r := Then(r, StateRead(Some(Present(a, b, false))), 0);
    Plans(plan, r, a, b, 0, true, false);
    r := Then(r, Proceed, 0);
    Answered(plan, r, a, b);
    r := Then(r, MarkedForTest(Some(Present(a, b, true))), 0);
    Plans(plan, r, a, b, 1, false, true);
    r := Then(r, Proceed, 0);
    Recovers(plan, r, a, b, 1, true);
    r := Then(r, Failure(BAD_STATE), 0);
  }

  /**
    Nor is it one for every image: in this run the first image's mark had landed and only its answer was
    lost, so planning moves on by itself, and the very first refusal of the second image's mark ends the
    update, although that image never had a recovery.
   */
  lemma RecoveryDenied(plan: Plan, a: Target, b: Target) returns (r: Run)
    requires TwoClients(a, b) && Willing(plan)
    ensures Disciplined(plan, r) && Refuses(plan, r) && At(plan, r.before).ctx.current == 1
    ensures Recoveries(plan, r) == [0] && At(plan, r).state.Failed?
  {
    hide At, Outstanding, Disciplined, Present, Recoveries, TwoClients, Willing;
    Refused(plan, a, b);
    r := FirstRefusal(a, b);
    Rereads(plan, r, a, b, 0, true);
    r := Then(r, StateRead(Some(Present(a, b, true))), 0);
    Plans(plan, r, a, b, 0, true, true);
    r := Then(r, Proceed, 0);
    Denied(plan, r, a, b);
    r := Then(r, Failure(BAD_STATE), 0);
  }

  lemma Denied(plan: Plan, r: Run, a: Target, b: Target)
    requires StandsAt(plan, r, a, b, Stop(MarkingForTest, MarkForTest, 1, true, true))
    ensures var q := Then(r, Failure(BAD_STATE), 0);
            && Disciplined(plan, q) && Refuses(plan, q) && At(plan, q).state.Failed?
            && At(plan, r).ctx.current == 1 && Recoveries(plan, q) == Recoveries(plan, r)
  {
    hide At, Outstanding, Disciplined;
    Steps(plan, r, a, b, Stop(MarkingForTest, MarkForTest, 1, true, true), Failure(BAD_STATE),
          Stop(Failed, Finish, 1, true, true));
  }
}
