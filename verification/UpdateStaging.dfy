/**
  What staging has behind it: when an update of several images asks for the reset, each of them was
  answered as marked, or seen scheduled or running, on the way.
 */
module UpdateStaging {
  import opened Common
  import opened UpdateTypes
  import opened UpdateMachine
  import opened UpdateInvariant
  import opened UpdateSteps
  import opened UpdateRuns
  import opened UpdateTheorems
  import opened UpdateRecovery
  import FinalTable = UpdateFinalTable

  /** The table has the target's file scheduled for the next boot, or running already. */
  predicate Seen(t: SlotTable, target: Target) {
    var holder := Holder(t, target);
    holder < |t| && (holder == Active(t, target.image) || t[holder].pending)
  }

  /** Checks on record were passed in a mode that takes this many images. */
  predicate InOrder(plan: Plan, c: Context) {
    c.spent.preconditionsChecked ==> ModeRefusal(plan, c.mode.mode, |c.targets|).None?
  }

  /** ... and before the first read none are on record. */
  predicate Checked(plan: Plan, state: UpdateState, c: Context) {
    InOrder(plan, c) && (Early(state) ==> !c.spent.preconditionsChecked)
  }

  /** The outcome goes on staging, or asks for the reset. */
  predicate Stages(o: Outcome) {
    PreBoot(o.next, o.ctx) || o.effect.Reset?
  }

  /** How many images an outcome has behind it. */
  function Behind(o: Outcome): nat {
    if o.effect.Reset? then |o.ctx.targets| else o.ctx.current
  }

  /** Every image from `from` up to where the outcome stands was seen, and what is on record is in order. */
  predicate Covers(plan: Plan, from: nat, o: Outcome) {
    && (o.next.Resetting? ==> o.effect.Reset?)
    && (Stages(o) ==>
          && InOrder(plan, o.ctx)
          && forall k :: from <= k < Behind(o) && k < |o.ctx.targets| ==> Seen(Table(o.ctx), o.ctx.targets[k].target))
  }

  /** Several images, one file each, to be booted into. */
  predicate Several(plan: Plan, c: Context) {
    |c.targets| > 1 && NoBuilds(c) && !plan.mode.UploadOnly?
  }

  lemma CheckedInOrder(plan: Plan, c: Context)
    requires InOrder(plan, c)
    ensures var checked := CheckPreconditions(plan, c);
            checked.Ok? ==> && checked.value == c.(spent := c.spent.(preconditionsChecked := true))
                            && ModeRefusal(plan, c.mode.mode, |c.targets|).None?
    ensures var checked := CheckPreconditions(plan, c);
            checked.Err? ==> checked.error.next.Failed? && checked.error.effect.Finish?
  {
    hide IsDowngrade, ModeRefusal;
  }

  /** A mode that takes several images is one that marks them. */
  lemma SeveralAreMarked(plan: Plan, c: Context)
    requires |c.targets| > 1 && ModeRefusal(plan, c.mode.mode, |c.targets|).None?
    ensures !WithoutSetState(c)
  {
  }

  lemma JudgingStages(plan: Plan, c: Context)
    ensures !Stages(InspectBoot(plan, c)) && !InspectBoot(plan, c).next.Resetting?
  {
    hide InspectBoot, Entitled;
    InspectBootEntitled(plan, c);
  }

  lemma StagedCovers(plan: Plan, c: Context)
    requires Several(plan, c) && InOrder(plan, c)
    ensures Covers(plan, |c.targets|, Staged(plan, c))
  {
    hide InspectBoot, CheckPreconditions, ModeRefusal, Seen;
    JudgingStages(plan, c);
    CheckedInOrder(plan, c);
  }

  lemma NextTargetCovers(plan: Plan, c: Context)
    requires Several(plan, c) && InOrder(plan, c) && c.current < |c.targets|
    ensures Covers(plan, c.current + 1, NextTarget(plan, c))
  {
    hide Staged, ModeRefusal, Seen;
    var next := c.(current := c.current + 1, spent := c.spent.(markRetried := false));
    if next.current == |next.targets| {
      StagedCovers(plan, next);
    }
  }

  lemma MarkCovers(plan: Plan, c: Context, slot: nat)
    requires Several(plan, c) && InOrder(plan, c) && c.current < |c.targets|
    ensures Covers(plan, c.current, PlanMark(plan, c, slot))
  {
    hide CheckPreconditions, NextTarget, ModeRefusal, Seen;
    var entry := c.targets[c.current].report.(uploadSkipped := true);
    var d := WithReport(c, c.current, entry);
    CheckedInOrder(plan, d);
    if CheckPreconditions(plan, d).Ok? {
      SeveralAreMarked(plan, d);
    }
  }

  lemma UploadCovers(plan: Plan, c: Context)
    requires Several(plan, c) && InOrder(plan, c) && c.current < |c.targets|
    ensures Covers(plan, c.current, PlanUpload(plan, c))
  {
    hide CheckPreconditions, ModeRefusal, Seen;
    CheckedInOrder(plan, c);
  }

  /** What planning skips, the table shows scheduled or running. */
  lemma SkippedIsSeen(plan: Plan, t: SlotTable, target: Target, entry: ImageReport)
    requires NeedOf(plan, t, target, entry).Skip? && !plan.mode.UploadOnly?
    ensures Seen(t, target)
  {
    hide Holder, Active;
  }

  lemma {:induction false} PlanFromCovers(plan: Plan, c: Context)
    requires Several(plan, c) && InOrder(plan, c)
    ensures Covers(plan, c.current, PlanFrom(plan, c))
    decreases |c.targets| - c.current
  {
    hide Staged, ChooseBuild, PlanMark, PlanUpload, NeedOf, ModeRefusal, Seen;
    if c.current >= |c.targets| {
      StagedCovers(plan, c);
    } else {
      ChooseBuildFramed(c);
      var need := NeedOf(plan, Table(c), c.targets[c.current].target, c.targets[c.current].report);
      match need
      case Skip(_, _) =>
        SkippedIsSeen(plan, Table(c), c.targets[c.current].target, c.targets[c.current].report);
        var d := SkipCurrent(c, need);
        PlanFromCovers(plan, d);
        PlanFromFramed(plan, d);
      case Mark(slot) => MarkCovers(plan, c, slot);
      case Upload => UploadCovers(plan, c);
    }
  }

  lemma PlanningCovers(plan: Plan, c: Context)
    requires Several(plan, c) && InOrder(plan, c)
    ensures Covers(plan, c.current, PlanFromState(plan, c))
  {
    hide PlanFrom, InspectBoot, AfterReset, Covers;
    PlanFromCovers(plan, c);
    JudgingStages(plan, c.(targets := SkipAll(c.targets)));
    NotStaging(plan, c.current, InspectBoot(plan, c.(targets := SkipAll(c.targets))));
  }

  lemma NotStaging(plan: Plan, from: nat, o: Outcome)
    requires !Stages(o) && !o.next.Resetting?
    ensures Covers(plan, from, o)
  {
  }

  // --- Decisions ----------------------------------------------------------------------------------

  /** The event answers the mark of image `k`. */
  predicate AnswersMark(state: UpdateState, event: Event, c: Context, k: nat) {
    state.MarkingForTest? && event.MarkedForTest? && c.current == k
  }

  /** Every image an outcome has behind it was behind before, is seen in the table in force, or was just marked. */
  predicate Follows(plan: Plan, state: UpdateState, event: Event, c: Context, o: Outcome) {
    && (o.next.Resetting? ==> state.Resetting? || o.effect.Reset?)
    && (Stages(o) ==>
          && Checked(plan, o.next, o.ctx)
          && forall k :: 0 <= k < Behind(o) && k < |o.ctx.targets| ==>
               k < c.current || Seen(Table(o.ctx), o.ctx.targets[k].target) || AnswersMark(state, event, c, k))
  }

  /** A step that stays where it is follows. */
  lemma StillFollows(plan: Plan, state: UpdateState, event: Event, c: Context, o: Outcome)
    requires Checked(plan, state, c) && o.ctx.current == c.current && !o.effect.Reset?
    requires o.ctx.spent.preconditionsChecked == c.spent.preconditionsChecked && |o.ctx.targets| == |c.targets|
    requires !Early(state) ==> !Early(o.next) && o.ctx.mode == c.mode
    requires o.next.Resetting? ==> state.Resetting?
    ensures Follows(plan, state, event, c, o)
  {
    hide ModeRefusal, Seen;
  }

  lemma CoveringFollows(plan: Plan, state: UpdateState, event: Event, c: Context, from: nat, o: Outcome)
    requires Covers(plan, from, o) && !Early(o.next)
    requires from <= c.current || (from == c.current + 1 && AnswersMark(state, event, c, c.current))
    ensures Follows(plan, state, event, c, o)
  {
    hide InOrder, Seen;
  }

  lemma QueryFollows(plan: Plan, state: UpdateState, event: Event, c: Context)
    requires Decidable(state, event, c) && Checked(plan, state, c)
    requires Early(state) || state.InspectingImages?
    ensures Follows(plan, state, event, c, DecideQuery(plan, state, event, c))
  {
    hide ModeRefusal, Seen, RecordMode;
  }

  lemma UploadingFollows(plan: Plan, event: Event, c: Context)
    requires Decidable(Uploading, event, c) && Checked(plan, Uploading, c) && !plan.mode.UploadOnly?
    ensures Follows(plan, Uploading, event, c, DecideStaging(plan, Uploading, event, c))
  {
    hide Follows, ModeRefusal;
    StillFollows(plan, Uploading, event, c, DecideStaging(plan, Uploading, event, c));
  }

  lemma VerifyingFollows(plan: Plan, event: Event, c: Context)
    requires Decidable(VerifyingUpload, event, c) && Checked(plan, VerifyingUpload, c) && Several(plan, c)
    requires c.spent.preconditionsChecked
    ensures Follows(plan, VerifyingUpload, event, c, DecideStaging(plan, VerifyingUpload, event, c))
  {
    hide Follows, ModeRefusal, Holder, NextTarget;
    SeveralAreMarked(plan, c);
    StillFollows(plan, VerifyingUpload, event, c, DecideStaging(plan, VerifyingUpload, event, c));
  }

  lemma MarkingFollows(plan: Plan, event: Event, c: Context)
    requires Decidable(MarkingForTest, event, c) && Checked(plan, MarkingForTest, c) && Several(plan, c)
    ensures Follows(plan, MarkingForTest, event, c, DecideStaging(plan, MarkingForTest, event, c))
  {
    hide Follows, ModeRefusal, NextTarget, Recoverable, Covers;
    var o := DecideStaging(plan, MarkingForTest, event, c);
    if event.MarkedForTest? {
      var d := c.(device := event.table, swapScheduled := true);
      NextTargetCovers(plan, d);
      NextTargetLater(plan, d);
      CoveringFollows(plan, MarkingForTest, event, c, c.current + 1, o);
    } else {
      StillFollows(plan, MarkingForTest, event, c, o);
    }
  }

  lemma NextTargetLater(plan: Plan, c: Context)
    ensures !Early(NextTarget(plan, c).next)
  {
    hide InspectBoot, RefusalFor, Entitled;
    InspectBootEntitled(plan, c.(current := c.current + 1, spent := c.spent.(markRetried := false)));
  }

  lemma PlanningFollows(plan: Plan, event: Event, c: Context)
    requires Decidable(Planning, event, c) && Checked(plan, Planning, c) && Several(plan, c) && !SomeInTrial(c)
    ensures Follows(plan, Planning, event, c, DecideStaging(plan, Planning, event, c))
  {
    hide Follows, ModeRefusal, PlanFromState, Covers, Entitled;
    var o := DecideStaging(plan, Planning, event, c);
    if event.Proceed? {
      PlanningCovers(plan, c);
      PlanFromStateOnwards(plan, c);
      CoveringFollows(plan, Planning, event, c, c.current, o);
    } else {
      StillFollows(plan, Planning, event, c, o);
    }
  }

  lemma ReconnectFollows(plan: Plan, event: Event, c: Context)
    requires Decidable(AwaitingReconnect, event, c) && Checked(plan, AwaitingReconnect, c)
    ensures Follows(plan, AwaitingReconnect, event, c, DecideStaging(plan, AwaitingReconnect, event, c))
  {
    hide Follows, ModeRefusal;
    StillFollows(plan, AwaitingReconnect, event, c, DecideStaging(plan, AwaitingReconnect, event, c));
  }

  /** Nothing after the reset leads back to it. */
  lemma BootedNeverResets(plan: Plan, state: UpdateState, event: Event, c: Context)
    requires Decidable(state, event, c)
    ensures !DecideBooted(plan, state, event, c).next.Resetting?
  {
    hide InspectBoot, AwaitDevice, AwaitCommit, Entitled, AllClientsKept, NextInTrial;
    var d := c.(device := if CarriesTable(event) then event.table else c.device);
    InspectBootEntitled(plan, d);
    AwaitDeviceEntitled(plan, d);
    AwaitCommitEntitled(d);
  }

  /** One decision while images are staged. */
  lemma StagingFollows(plan: Plan, blamed: bool, state: UpdateState, event: Event, c: Context)
    requires Invariant(plan, blamed, state, c) && PreBoot(state, c) && !Early(state) && !state.InspectingImages?
    requires Decidable(state, event, c) && Checked(plan, state, c) && Several(plan, c)
    ensures Follows(plan, state, event, c, DecideStaging(plan, state, event, c))
  {
    hide Follows, DecideStaging, Checked, ModeRefusal;
    if state.Planning? {
      PlanningFollows(plan, event, c);
    } else if state.Uploading? {
      UploadingFollows(plan, event, c);
    } else if state.VerifyingUpload? {
      VerifyingFollows(plan, event, c);
    } else if state.MarkingForTest? {
      MarkingFollows(plan, event, c);
    } else {
      ReconnectFollows(plan, event, c);
    }
  }

  lemma DecideFollows(plan: Plan, blamed: bool, state: UpdateState, event: Event, now: int, timers: Timers, c: Context)
    requires Invariant(plan, blamed, state, c) && PreBoot(state, c)
    requires Decidable(state, event, c) && Checked(plan, state, c) && Several(plan, c)
    ensures Follows(plan, state, event, c, Decide(plan, state, event, now, timers, c))
  {
    hide Follows, DecideStaging, DecideQuery, DecideBooted, Several, ModeRefusal, Invariant;
    var o := Decide(plan, state, event, now, timers, c);
    if event.Cancel? || event.Tick? {
      StillFollows(plan, state, event, c, o);
    } else if Early(state) || state.InspectingImages? {
      QueryFollows(plan, state, event, c);
    } else {
      StagingFollows(plan, blamed, state, event, c);
    }
  }

  /** After the reset only a refused reset is still about it. */
  lemma NeverResetsAgain(plan: Plan, state: UpdateState, event: Event, now: int, timers: Timers, c: Context)
    requires Decidable(state, event, c) && !PreBoot(state, c) && !IsTerminal(state) && !state.Resetting?
    ensures !Decide(plan, state, event, now, timers, c).next.Resetting?
  {
    hide DecideBooted;
    BootedNeverResets(plan, state, event, c);
  }

  // --- Whole runs ---------------------------------------------------------------------------------

  /** Some event of the run answered the mark of image `k`, or left a table that shows it scheduled or running. */
  predicate Evidenced(plan: Plan, r: Run, k: nat) {
    && r.Then?
    && (|| Evidenced(plan, r.before, k)
        || AnswersMark(At(plan, r.before).state, r.event, At(plan, r.before).ctx, k)
        || Shows(At(plan, r).ctx, k))
  }

  predicate Shows(c: Context, k: nat) {
    k < |c.targets| && Seen(Table(c), c.targets[k].target)
  }

  predicate AllEvidenced(plan: Plan, r: Run, n: nat) {
    forall k :: 0 <= k < n ==> Evidenced(plan, r, k)
  }

  /** While it stages, an update has evidence of every image behind it; from the reset on, of all. */
  predicate Backed(plan: Plan, r: Run) {
    var m := At(plan, r);
    && (PreBoot(m.state, m.ctx) ==> Checked(plan, m.state, m.ctx) && AllEvidenced(plan, r, m.ctx.current))
    && (m.state.Resetting? ==> AllEvidenced(plan, r, |m.ctx.targets|))
  }

  predicate Package(plan: Plan, r: Run, targets: seq<Target>) {
    && Disciplined(plan, r) && FinalTable.About(r, targets) && FinalTable.OneFileEach(targets)
    && |targets| > 1 && !plan.mode.UploadOnly?
  }

  /** What follows from the step before is evidenced. */
  lemma AddsEvidence(plan: Plan, r: Run, o: Outcome)
    requires r.Then? && Backed(plan, r.before)
    requires var b := At(plan, r.before);
             && PreBoot(b.state, b.ctx) && Follows(plan, b.state, r.event, b.ctx, o)
             && o.ctx == At(plan, r).ctx && o.next == At(plan, r).state && o.ctx.current <= |o.ctx.targets|
    ensures Backed(plan, r)
  {
    hide At, Seen, Checked;
    var b := At(plan, r.before);
    if Stages(o) {
      forall k | 0 <= k < Behind(o) && k < |o.ctx.targets|
        ensures Evidenced(plan, r, k)
      {
        if k < b.ctx.current {
          assert Evidenced(plan, r.before, k);
        }
      }
    }
  }

  lemma EvidenceStays(plan: Plan, r: Run, n: nat)
    requires r.Then? && AllEvidenced(plan, r.before, n)
    ensures AllEvidenced(plan, r, n)
  {
    hide At;
    forall k | 0 <= k < n
      ensures Evidenced(plan, r, k)
    {
      assert Evidenced(plan, r.before, k);
    }
  }

  /** Past the reset no new evidence is needed. */
  lemma PastBacked(plan: Plan, r: Run)
    requires r.Then? && Disciplined(plan, r) && Backed(plan, r.before)
    requires var b := At(plan, r.before);
             !IsTerminal(b.state) && !PreBoot(b.state, b.ctx)
    ensures Backed(plan, r)
  {
    hide At, LastStep, Decide, Good, Grounds, Checked, Outstanding, Shows, PreBoot, Disciplined;
    var b := At(plan, r.before);
    Stepped(plan, r);
    if b.state.Resetting? {
      EvidenceStays(plan, r, |b.ctx.targets|);
    } else {
      Decided(plan, r);
      NeverResetsAgain(plan, b.state, r.event, r.now, b.timers, b.ctx);
    }
  }

  lemma CurrentWithin(plan: Plan, blamed: bool, m: MachineState, outstanding: Effect)
    requires Good(plan, blamed, m, outstanding)
    ensures m.ctx.current <= |m.ctx.targets|
  {
  }

  /** One step adds the evidence it needs. */
  lemma StepBacked(plan: Plan, r: Run)
    requires r.Then? && Disciplined(plan, r) && Backed(plan, r.before) && !IsTerminal(At(plan, r.before).state)
    requires Several(plan, At(plan, r.before).ctx)
    ensures Backed(plan, r)
  {
    hide At, LastStep, Decide, Transition, Checked, Several, Outstanding, Seen, Invariant, TimersFit, PreBoot;
    var b := At(plan, r.before);
    if PreBoot(b.state, b.ctx) {
      Stepped(plan, r);
      Decided(plan, r);
      CurrentWithin(plan, Blamed(r), At(plan, r), Outstanding(plan, r));
      DecideFollows(plan, Blamed(r), b.state, r.event, r.now, b.timers, b.ctx);
      AddsEvidence(plan, r, Decide(plan, b.state, r.event, r.now, b.timers, b.ctx));
    } else {
      PastBacked(plan, r);
    }
  }

  lemma {:induction false} AlwaysBacked(plan: Plan, r: Run, targets: seq<Target>)
    requires Package(plan, r, targets)
    ensures Backed(plan, r)
  {
    hide At, Backed;
    match r
    case Begin(_) => BeginsBacked(plan, targets);
    case Then(before, event, now) =>
      AlwaysBacked(plan, before, targets);
      FinalTable.TargetsKept(plan, before, targets);
      if IsTerminal(At(plan, before).state) {
        Stepped(plan, r);
        EndedBacked(plan, r);
      } else {
        StepBacked(plan, r);
      }
  }

  lemma BeginsBacked(plan: Plan, targets: seq<Target>)
    ensures Backed(plan, Begin(targets))
  {
  }

  lemma EndedBacked(plan: Plan, r: Run)
    requires IsTerminal(At(plan, r).state)
    ensures Backed(plan, r)
  {
    hide At;
  }

  /**
    The reset is asked for only with evidence of every image: its mark was answered, or a table of the run
    showed it scheduled or running.
   */
  lemma ResetOnEvidence(plan: Plan, r: Run, targets: seq<Target>, k: nat)
    requires Package(plan, r, targets) && k < |targets|
    requires Outstanding(plan, r).Reset? || Outstanding(plan, r).ForceReset?
    ensures Evidenced(plan, r, k)
  {
    hide At, Outstanding, Invariant, TimersFit, Checked, Evidenced;
    AlwaysBacked(plan, r, targets);
    RunGood(plan, r);
    FinalTable.TargetsKept(plan, r, targets);
  }
}
