/**
  The closed loop does come to its end: a trace, move by move, in which both images of the package are
  uploaded, marked, booted, confirmed and committed, and the update completes.
 */
module LoopCompletes {
  import opened Common
  import opened UpdateTypes
  import opened UpdateMachine
  import opened UpdateInvariant
  import opened UpdateRuns
  import opened LoopDevice
  import opened ClosedLoop
  import LoopPath
  import UpdatePath
  import UpdateScenarios
  import B = BootModel

  // --- Moves --------------------------------------------------------------------------------------

  /** Where the loop stands: the machine's last decision, the device, and what has become of the request. */
  datatype Spot = Spot(o: Outcome, d: B.Device, reply: Option<SlotTable>, done: bool, taken: bool, rebooted: bool)

  predicate Standing(plan: Plan, r: Run, o: Outcome) {
    && UpdateScenarios.On(plan, r, o, At(plan, r).timers)
    && (r.Then? ==> LastStep(plan, r).effect == o.effect)
  }

  predicate Here(s: Scene, t: Trace, x: Spot) {
    && Lawful(s, t) && B.Valid(x.d) && |x.d.images| == 2
    && var w := WorldAt(s, t);
       && w == World(w.r, x.d, x.reply, x.done, w.late, x.taken, x.rebooted)
       && Standing(s.plan, w.r, x.o)
  }

  /** An answer that may be delivered, and what the machine decides on it. */
  predicate Heard(plan: Plan, x: Spot, event: Event, to: Outcome) {
    && Answers(x.o.effect, event) && !event.Tick? && !IsTerminal(x.o.next)
    && (CarriesTable(event) ==> x.reply.Some? && event.table == x.reply)
    && Decidable(x.o.next, event, x.o.ctx)
    && Decide(plan, x.o.next, event, 0, UpdateScenarios.NO_TIMERS, x.o.ctx) == to
    && !to.effect.Nothing? && (NamesCurrent(to.effect) ==> to.ctx.current < |to.ctx.targets|)
  }

  lemma TimersAside(plan: Plan, state: UpdateState, event: Event, timers: Timers, c: Context)
    requires Decidable(state, event, c) && !event.Tick?
    ensures Decide(plan, state, event, 0, timers, c) == Decide(plan, state, event, 0, UpdateScenarios.NO_TIMERS, c)
  {
    hide DecideQuery, DecideStaging, DecideBooted, Decidable;
  }

  lemma StandsOn(plan: Plan, r: Run, x: Spot, event: Event, to: Outcome)
    requires Standing(plan, r, x.o) && Heard(plan, x, event, to)
    ensures Standing(plan, Then(r, event, 0), to)
  {
    hide Decide, Decidable, Answers, At, Outstanding, Disciplined;
    TimersAside(plan, x.o.next, event, At(plan, r).timers, x.o.ctx);
    UpdateScenarios.Walk(plan, r, x.o, At(plan, r).timers, event, 0, to);
  }

  lemma Hears(s: Scene, t: Trace, x: Spot, event: Event, to: Outcome)
    requires Here(s, t, x) && Heard(s.plan, x, event, to)
    ensures Here(s, Next(t, Deliver(event, 0)), x.(o := to, reply := None, done := false))
  {
    hide Decide, Decidable, At, LastStep, B.Valid, UpdateScenarios.On;
    var w := WorldAt(s, t);
    StandsOn(s.plan, w.r, x, event, to);
    OutstandingIs(s.plan, w.r, x.o);
  }

  lemma OutstandingIs(plan: Plan, r: Run, o: Outcome)
    requires Standing(plan, r, o)
    ensures Outstanding(plan, r) == o.effect
  {
    hide At, LastStep;
  }

  /** The outstanding request, with the hash it names. */
  lemma RequestIs(plan: Plan, r: Run, o: Outcome)
    requires Standing(plan, r, o)
    ensures Request(plan, r).effect == o.effect
    ensures o.effect.MarkForTest? || o.effect.Confirm? ==>
              o.ctx.current < |o.ctx.targets| && Request(plan, r).hash == o.ctx.targets[o.ctx.current].target.hash
  {
    hide At, LastStep;
    RequestIsOutstanding(plan, r);
    if o.effect.MarkForTest? || o.effect.Confirm? {
      StepNames(plan, r);
    }
  }

  /** The device reads its state out. */
  lemma Reads(s: Scene, t: Trace, x: Spot, d: B.Device)
    requires Here(s, t, x) && x.o.effect.ReadState? && !x.done && B.AdvanceApplies(x.d) == d
    ensures B.Valid(d) && Here(s, Next(t, Execute), x.(d := d, reply := Some(TableOf(B.Listing(d))), done := true))
  {
    hide At, LastStep, Standing, B.AdvanceApplies, B.Listing, TableOf, Outstanding, Request;
    RequestIs(s.plan, WorldAt(s, t).r, x.o);
  }

  /** The device carries out a mark or a confirm. */
  lemma Sets(s: Scene, t: Trace, x: Spot, d: B.Device)
    requires Here(s, t, x) && (x.o.effect.MarkForTest? || x.o.effect.Confirm?) && !x.done
    requires x.o.ctx.current < |x.o.ctx.targets|
    requires B.SetState(x.d, Some(x.o.ctx.targets[x.o.ctx.current].target.hash), x.o.effect.Confirm?) == (d, B.Accepted)
    ensures B.Valid(d) && Here(s, Next(t, Execute), x.(d := d, reply := Some(TableOf(B.Listing(d))), done := true))
  {
    hide At, LastStep, Standing, B.SetState, B.Listing, TableOf, Outstanding, Request;
    RequestIs(s.plan, WorldAt(s, t).r, x.o);
  }

  lemma Resets(s: Scene, t: Trace, x: Spot)
    requires Here(s, t, x) && x.o.effect.Reset? && !x.done
    ensures Here(s, Next(t, Execute), x.(taken := true, done := true))
  {
    hide At, LastStep, Standing, Outstanding, Request;
    RequestIs(s.plan, WorldAt(s, t).r, x.o);
  }

  lemma Restarts(s: Scene, t: Trace, x: Spot)
    requires Here(s, t, x) && x.taken && !x.rebooted
    ensures Here(s, Next(t, Restart), x.(d := B.Reboot(x.d), rebooted := true))
  {
    hide At, LastStep, Standing, B.Reboot;
  }

  lemma Writes(s: Scene, t: Trace, x: Spot, image: nat, content: B.Content)
    requires Here(s, t, x) && x.o.effect.StartUpload? && MayUpload(s, image, content)
    ensures image < 2 && Here(s, Next(t, Write(image, content)), x.(d := Uploaded(x.d, image, content)))
  {
    hide At, LastStep, Standing, Outstanding, Request;
    RequestIs(s.plan, WorldAt(s, t).r, x.o);
  }

  // --- What the machine decides on each answer ----------------------------------------------------

  lemma UploadDecides(plan: Plan, c: Context)
    requires Decidable(Uploading, UploadFinished(0, false), c)
    ensures Decide(plan, Uploading, UploadFinished(0, false), 0, UpdateScenarios.NO_TIMERS, c)
            == AfterUpload(plan, c, 0, false)
  {
  }

  lemma VerifyDecides(plan: Plan, c: Context, t: SlotTable)
    requires Decidable(VerifyingUpload, StateRead(Some(t)), c)
    ensures Decide(plan, VerifyingUpload, StateRead(Some(t)), 0, UpdateScenarios.NO_TIMERS, c)
         == UploadVerified(plan, c.(device := Some(t)))
  {
  }

  lemma MarkDecides(plan: Plan, c: Context, t: SlotTable)
    requires Decidable(MarkingForTest, MarkedForTest(Some(t)), c)
    ensures Decide(plan, MarkingForTest, MarkedForTest(Some(t)), 0, UpdateScenarios.NO_TIMERS, c)
         == NextTarget(plan, c.(device := Some(t), swapScheduled := true))
  {
  }

  lemma BootDecides(plan: Plan, c: Context, t: SlotTable)
    requires Decidable(VerifyingBooted, StateRead(Some(t)), c)
    ensures Decide(plan, VerifyingBooted, StateRead(Some(t)), 0, UpdateScenarios.NO_TIMERS, c)
         == InspectBoot(plan, c.(device := Some(t)))
  {
  }

  lemma ConfirmDecides(plan: Plan, c: Context, t: SlotTable)
    requires Decidable(Confirming, Confirmed(Some(t)), c)
    ensures Decide(plan, Confirming, Confirmed(Some(t)), 0, UpdateScenarios.NO_TIMERS, c)
         == AfterConfirm(c.(device := Some(t)))
  {
  }

  lemma KeptDecides(plan: Plan, c: Context, t: SlotTable)
    requires Decidable(VerifyingConfirmed, StateRead(Some(t)), c)
    ensures Decide(plan, VerifyingConfirmed, StateRead(Some(t)), 0, UpdateScenarios.NO_TIMERS, c)
         == ConfirmVerified(c.(device := Some(t)))
  {
  }

  // --- Staging one image --------------------------------------------------------------------------

  /** The device obliges, the client image comes first, and the plan confirms by itself. */
  predicate Smooth(s: Scene, a: B.Content, b: B.Content) {
    LoopPath.Obliging(s, a, b) && s.clientFirst && UpdatePath.Straight(s.plan)
  }

  /** The device while image `k` is staged: the one before it is marked, the one after it untouched. */
  function DeviceAt(s: Scene, a: B.Content, b: B.Content, k: nat, phase: LoopPath.Phase): (d: B.Device)
    requires |s.orig.images| == 2
    ensures |d.images| == 2
  {
    if k == 0 then LoopPath.DeviceIn(s, a, b, phase, LoopPath.Old)
    else LoopPath.DeviceIn(s, a, b, LoopPath.Marked, phase)
  }

  /** The machine stages image `k`, and the device is in step. */
  predicate StagesAt(s: Scene, a: B.Content, b: B.Content, t: Trace, x: Spot, k: nat, phase: LoopPath.Phase) {
    && Smooth(s, a, b) && k < 2 && Here(s, t, x) && |s.orig.images| == 2
    && UpdatePath.Staging(x.o.ctx, Targets(s), k, k > 0) && x.d == DeviceAt(s, a, b, k, phase)
    && !x.done && !x.taken && !x.rebooted
  }

  lemma TwoTargets(s: Scene, a: B.Content, b: B.Content)
    requires Smooth(s, a, b)
    ensures UpdatePath.ClientThenDevice(Targets(s)) && Targets(s) == [s.client, s.device]
  {
    hide B.HashOf, B.Carries, Owned;
  }

  lemma Uploads(s: Scene, a: B.Content, b: B.Content, t: Trace, x: Spot, k: nat) returns (u: Trace, y: Spot)
    requires StagesAt(s, a, b, t, x, k, LoopPath.Old) && x.o.next.Planning? && x.o.effect.Continue?
    requires !x.o.ctx.uploadInProgress && UpdatePath.Absent(Table(x.o.ctx), Targets(s)[k])
    ensures StagesAt(s, a, b, u, y, k, LoopPath.Sent) && y.o.next.VerifyingUpload? && y.o.effect.ReadState?
    ensures !y.o.ctx.uploadInProgress && y.o.ctx.spent.preconditionsChecked
  {
    hide Here, PlanFromState, AfterUpload, Decide, Table, UpdatePath.Absent, UpdatePath.ClientThenDevice, B.HashOf,
        Fits;
    TwoTargets(s, a, b);
    UpdatePath.PlansUpload(s.plan, x.o.ctx, Targets(s), k, k > 0);
    UpdateScenarios.PlanningDecides(s.plan, UpdateScenarios.NO_TIMERS, x.o.ctx);
    var planned := PlanFromState(s.plan, x.o.ctx);
    Hears(s, t, x, Proceed, planned);
    u, y := Next(t, Deliver(Proceed, 0)), x.(o := planned, reply := None, done := false);
    var file := if k == 0 then a else b;
    FileMayGo(s, a, b, k);
    Writes(s, u, y, k, file);
    u, y := Next(u, Write(k, file)), y.(d := Uploaded(y.d, k, file));
    UpdatePath.UploadDone(s.plan, y.o.ctx, Targets(s), k, k > 0);
    UploadDecides(s.plan, y.o.ctx);
    var sent := AfterUpload(s.plan, y.o.ctx, 0, false);
    Hears(s, u, y, UploadFinished(0, false), sent);
    u, y := Next(u, Deliver(UploadFinished(0, false), 0)), y.(o := sent, reply := None, done := false);
  }

  lemma FileMayGo(s: Scene, a: B.Content, b: B.Content, k: nat)
    requires Smooth(s, a, b) && k < 2
    ensures var file := if k == 0 then a else b;
            && MayUpload(s, k, file) && |s.orig.images| == 2
            && Uploaded(DeviceAt(s, a, b, k, LoopPath.Old), k, file) == DeviceAt(s, a, b, k, LoopPath.Sent)
  {
    hide B.HashOf, B.Carries;
    LoopPath.SceneFacts(s, a, b);
    var file := if k == 0 then a else b;
    assert Uploaded(DeviceAt(s, a, b, k, LoopPath.Old), k, file).images == DeviceAt(s, a, b, k, LoopPath.Sent).images;
  }

  /** The table the device gives while image `k` is staged. */
  function TableAt(s: Scene, a: B.Content, b: B.Content, k: nat, phase: LoopPath.Phase): SlotTable
    requires |s.orig.images| == 2 && B.Valid(s.orig)
  {
    TableOf(B.Listing(DeviceAt(s, a, b, k, phase)))
  }

  lemma StagingShows(s: Scene, a: B.Content, b: B.Content, k: nat, phase: LoopPath.Phase)
    requires Smooth(s, a, b) && k < 2 && LoopPath.Staging(phase)
    ensures |s.orig.images| == 2 && B.Valid(s.orig) && B.Valid(DeviceAt(s, a, b, k, phase))
    ensures B.AdvanceApplies(DeviceAt(s, a, b, k, phase)) == DeviceAt(s, a, b, k, phase)
    ensures UpdatePath.Absent(TableAt(s, a, b, k, phase), Targets(s)[k]) <==> phase.Old?
    ensures k == 0 ==> UpdatePath.Absent(TableAt(s, a, b, k, phase), Targets(s)[1])
  {
    hide B.HashOf, Fits, LoopPath.DeviceIn, B.AdvanceApplies, B.Listing, TableOf, HolderFrom, Runs, Keeps;
    TwoTargets(s, a, b);
    LoopPath.SceneFacts(s, a, b);
    var app := if k == 0 then phase else LoopPath.Marked;
    var other := if k == 0 then LoopPath.Old else phase;
    LoopPath.QuietRead(s, a, b, app, other);
    LoopPath.TableShows(s, a, b, app, other);
  }

  lemma SeesUpload(s: Scene, a: B.Content, b: B.Content, t: Trace, x: Spot, k: nat) returns (u: Trace, y: Spot)
    requires StagesAt(s, a, b, t, x, k, LoopPath.Sent) && x.o.next.VerifyingUpload? && x.o.effect.ReadState?
    requires !x.o.ctx.uploadInProgress && x.o.ctx.spent.preconditionsChecked
    ensures StagesAt(s, a, b, u, y, k, LoopPath.Sent) && y.o.next.MarkingForTest? && y.o.effect.MarkForTest?
    ensures !y.o.ctx.uploadInProgress && y.o.ctx.spent.preconditionsChecked
  {
    hide Here, UploadVerified, Decide, UpdatePath.Absent, B.HashOf, Fits, B.AdvanceApplies, B.Listing, TableOf;
    TwoTargets(s, a, b);
    StagingShows(s, a, b, k, LoopPath.Sent);
    var table := TableAt(s, a, b, k, LoopPath.Sent);
    Reads(s, t, x, x.d);
    u, y := Next(t, Execute), x.(reply := Some(table), done := true);
    var c := y.o.ctx.(device := Some(table));
    UpdatePath.UploadSeen(s.plan, c, Targets(s), k, k > 0);
    VerifyDecides(s.plan, y.o.ctx, table);
    var seen := UploadVerified(s.plan, c);
    Hears(s, u, y, StateRead(Some(table)), seen);
    u, y := Next(u, Deliver(StateRead(Some(table)), 0)), y.(o := seen, reply := None, done := false);
  }

  lemma MarkTaken(s: Scene, a: B.Content, b: B.Content, k: nat)
    requires Smooth(s, a, b) && k < 2
    ensures |s.orig.images| == 2 && B.Valid(DeviceAt(s, a, b, k, LoopPath.Sent)) && |Targets(s)| == 2
    ensures B.SetState(DeviceAt(s, a, b, k, LoopPath.Sent), Some(Targets(s)[k].hash), false)
         == (DeviceAt(s, a, b, k, LoopPath.Marked), B.Accepted)
  {
    hide B.HashOf, Fits, LoopPath.DeviceIn, B.SetState;
    TwoTargets(s, a, b);
    LoopPath.AppMarked(s, a, b);
    LoopPath.OtherMarked(s, a, b);
  }

  /** The image is marked; the table in force is the one the device gave with the answer. */
  lemma Marks(s: Scene, a: B.Content, b: B.Content, t: Trace, x: Spot, k: nat) returns (u: Trace, y: Spot)
    requires StagesAt(s, a, b, t, x, k, LoopPath.Sent) && x.o.next.MarkingForTest? && x.o.effect.MarkForTest?
    requires !x.o.ctx.uploadInProgress && x.o.ctx.spent.preconditionsChecked
    ensures |s.orig.images| == 2 && B.Valid(s.orig)
    ensures Here(s, u, y) && y.d == DeviceAt(s, a, b, k, LoopPath.Marked) && !y.done && !y.taken && !y.rebooted
    ensures UpdatePath.Staging(y.o.ctx, Targets(s), k + 1, true) && !y.o.ctx.uploadInProgress
    ensures y.o.ctx.device == Some(TableAt(s, a, b, k, LoopPath.Marked))
    ensures if k == 0 then y.o.next.Planning? && y.o.effect.Continue? else y.o.next.Resetting? && y.o.effect.Reset?
  {
    hide Here, NextTarget, Decide, B.HashOf, Fits, B.SetState, B.Listing, TableOf;
    MarkTaken(s, a, b, k);
    StagingShows(s, a, b, k, LoopPath.Marked);
    var table := TableAt(s, a, b, k, LoopPath.Marked);
    var d := DeviceAt(s, a, b, k, LoopPath.Marked);
    Sets(s, t, x, d);
    u, y := Next(t, Execute), x.(d := d, reply := Some(table), done := true);
    var c := y.o.ctx.(device := Some(table), swapScheduled := true);
    UpdatePath.MarkDone(s.plan, c, Targets(s), k);
    MarkDecides(s.plan, y.o.ctx, table);
    var next := NextTarget(s.plan, c);
    Hears(s, u, y, MarkedForTest(Some(table)), next);
    u, y := Next(u, Deliver(MarkedForTest(Some(table)), 0)), y.(o := next, reply := None, done := false);
  }

  // --- From the start to the reset ----------------------------------------------------------------

  /** The questions before the first read. */
  lemma OpensTrace(s: Scene, a: B.Content, b: B.Content) returns (u: Trace, y: Spot)
    requires Smooth(s, a, b)
    ensures Here(s, u, y) && y.d == s.orig && !y.done && !y.taken && !y.rebooted
    ensures y.o == Outcome(Initial(Targets(s)).ctx.(mode := UpdateScenarios.OPENING_MODE), InspectingImages, ReadState)
  {
    hide Here, B.HashOf, Fits, Initial, DecideStaging, DecideBooted;
    TwoTargets(s, a, b);
    Begins(s, a, b);
    u := Trace.Start;
    var c := Initial(Targets(s)).ctx;
    y := Spot(Outcome(c, Idle, Nothing), s.orig, None, false, false, false);
    var asked := Outcome(c, QueryingParameters, QueryParameters);
    Hears(s, u, y, Event.Start, asked);
    u, y := Next(u, Deliver(Event.Start, 0)), y.(o := asked);
    var modest := Outcome(c, QueryingBootloader, QueryBootloader);
    Hears(s, u, y, ParametersUnavailable, modest);
    u, y := Next(u, Deliver(ParametersUnavailable, 0)), y.(o := modest);
    var known := BootloaderRead(SwapUsingMove, false);
    var told := Outcome(c.(mode := UpdateScenarios.OPENING_MODE), InspectingImages, ReadState);
    Hears(s, u, y, known, told);
    u, y := Next(u, Deliver(known, 0)), y.(o := told);
  }

  lemma Begins(s: Scene, a: B.Content, b: B.Content)
    requires Smooth(s, a, b)
    ensures var c := Initial(Targets(s)).ctx;
            && Here(s, Trace.Start, Spot(Outcome(c, Idle, Nothing), s.orig, None, false, false, false))
            && |c.targets| == 2 && !c.noDowngrade
  {
    hide B.HashOf, Fits;
    LoopPath.SceneFacts(s, a, b);
    UpdateScenarios.BeginsOn(s.plan, Targets(s));
    hide UpdateScenarios.On;
    OpeningRun(s);
  }

  lemma OpeningRun(s: Scene)
    ensures Lawful(s, Trace.Start) && WorldAt(s, Trace.Start) == Opening(s)
            && At(s.plan, Begin(Targets(s))).timers == UpdateScenarios.NO_TIMERS
  {
  }

  lemma Plans(s: Scene, a: B.Content, b: B.Content) returns (u: Trace, y: Spot)
    requires Smooth(s, a, b)
    ensures StagesAt(s, a, b, u, y, 0, LoopPath.Old) && y.o.next.Planning? && y.o.effect.Continue?
    ensures !y.o.ctx.uploadInProgress && UpdatePath.Absent(Table(y.o.ctx), Targets(s)[0])
  {
    hide Here, B.HashOf, Fits, DecideStaging, DecideBooted, B.AdvanceApplies, B.Listing, TableOf, UpdatePath.Absent;
    TwoTargets(s, a, b);
    StagingShows(s, a, b, 0, LoopPath.Old);
    Untouched(s, a, b);
    u, y := OpensTrace(s, a, b);
    var table := TableAt(s, a, b, 0, LoopPath.Old);
    Reads(s, u, y, y.d);
    u, y := Next(u, Execute), y.(reply := Some(table), done := true);
    var read := Outcome(y.o.ctx.(device := Some(table)), Planning, Continue);
    Hears(s, u, y, StateRead(Some(table)), read);
    u, y := Next(u, Deliver(StateRead(Some(table)), 0)), y.(o := read, reply := None, done := false);
  }

  lemma Untouched(s: Scene, a: B.Content, b: B.Content)
    requires |s.orig.images| == 2
    ensures DeviceAt(s, a, b, 0, LoopPath.Old) == s.orig
  {
    assert DeviceAt(s, a, b, 0, LoopPath.Old).images == s.orig.images;
  }

  /** Both images are uploaded and marked. */
  lemma Stages(s: Scene, a: B.Content, b: B.Content) returns (u: Trace, y: Spot)
    requires Smooth(s, a, b)
    ensures |s.orig.images| == 2 && Here(s, u, y) && !y.done && !y.taken && !y.rebooted
    ensures y.d == LoopPath.DeviceIn(s, a, b, LoopPath.Marked, LoopPath.Marked)
    ensures UpdatePath.Staging(y.o.ctx, Targets(s), 2, true) && !y.o.ctx.uploadInProgress
    ensures y.o.next.Resetting? && y.o.effect.Reset?
  {
    hide Here, Smooth, B.Listing, TableOf, UpdatePath.Absent, UpdatePath.Staging, LoopPath.DeviceIn;
    u, y := Plans(s, a, b);
    u, y := Uploads(s, a, b, u, y, 0);
    u, y := SeesUpload(s, a, b, u, y, 0);
    u, y := Marks(s, a, b, u, y, 0);
    StagingShows(s, a, b, 0, LoopPath.Marked);
    SameDevice(s, a, b);
    u, y := Uploads(s, a, b, u, y, 1);
    u, y := SeesUpload(s, a, b, u, y, 1);
    u, y := Marks(s, a, b, u, y, 1);
  }

  lemma SameDevice(s: Scene, a: B.Content, b: B.Content)
    requires |s.orig.images| == 2
    ensures DeviceAt(s, a, b, 0, LoopPath.Marked) == DeviceAt(s, a, b, 1, LoopPath.Old)
  {
  }

  // --- From the reset to the end ------------------------------------------------------------------

  /** The device resets, drops the link and comes back on both images. */
  lemma Boots(s: Scene, a: B.Content, b: B.Content, t: Trace, x: Spot) returns (u: Trace, y: Spot)
    requires Smooth(s, a, b) && |s.orig.images| == 2 && Here(s, t, x) && !x.done && !x.taken && !x.rebooted
    requires x.d == LoopPath.DeviceIn(s, a, b, LoopPath.Marked, LoopPath.Marked)
    requires UpdatePath.Staging(x.o.ctx, Targets(s), 2, true) && !x.o.ctx.uploadInProgress
    requires x.o.next.Resetting? && x.o.effect.Reset?
    ensures Here(s, u, y) && !y.done && y.rebooted
    ensures y.d == LoopPath.DeviceIn(s, a, b, LoopPath.Trial, LoopPath.Applies)
    ensures y.o == Outcome(x.o.ctx, VerifyingBooted, ReadState)
  {
    hide Here, B.HashOf, Fits, LoopPath.DeviceIn, B.Reboot, DecideQuery, DecideBooted;
    LoopPath.Reboots(s, a, b);
    var c := x.o.ctx;
    Resets(s, t, x);
    u, y := Next(t, Execute), x.(taken := true, done := true);
    Hears(s, u, y, ResetAccepted, Outcome(c, AwaitingDisconnect, AwaitDisconnect));
    u, y := Next(u, Deliver(ResetAccepted, 0)), y.(o := Outcome(c, AwaitingDisconnect, AwaitDisconnect),
                                                   reply := None, done := false);
    Hears(s, u, y, Disconnected, Outcome(c, AwaitingReconnect, RequestReconnect));
    u, y := Next(u, Deliver(Disconnected, 0)), y.(o := Outcome(c, AwaitingReconnect, RequestReconnect),
                                                  reply := None, done := false);
    Restarts(s, u, y);
    u, y := Next(u, Move.Restart), y.(d := B.Reboot(y.d), rebooted := true);
    Hears(s, u, y, Reconnected, Outcome(c, VerifyingBooted, ReadState));
    u, y := Next(u, Deliver(Reconnected, 0)), y.(o := Outcome(c, VerifyingBooted, ReadState), reply := None,
                                                 done := false);
  }

  /** The first read after the boot finds both on trial, and the client image is confirmed. */
  lemma Confirms(s: Scene, a: B.Content, b: B.Content, t: Trace, x: Spot) returns (u: Trace, y: Spot)
    requires Smooth(s, a, b) && |s.orig.images| == 2 && Here(s, t, x) && !x.done
    requires x.d == LoopPath.DeviceIn(s, a, b, LoopPath.Trial, LoopPath.Applies)
    requires UpdatePath.Staging(x.o.ctx, Targets(s), 2, true) && x.o.next.VerifyingBooted? && x.o.effect.ReadState?
    ensures Here(s, u, y) && !y.done && y.d == LoopPath.DeviceIn(s, a, b, LoopPath.Trial, LoopPath.Trial)
    ensures y.o.next.Confirming? && y.o.effect.Confirm? && y.o.ctx.current == 0
    ensures |y.o.ctx.targets| == 2 && (forall k :: 0 <= k < 2 ==> y.o.ctx.targets[k].target == Targets(s)[k])
    ensures !y.o.ctx.targets[1].inTrial
  {
    hide Here, B.HashOf, Fits, LoopPath.DeviceIn, B.AdvanceApplies, B.Listing, TableOf, Decide, InspectBoot, Runs,
        Keeps, Holder;
    TwoTargets(s, a, b);
    LoopPath.ApplyingRead(s, a, b);
    LoopPath.TableShows(s, a, b, LoopPath.Trial, LoopPath.Trial);
    var d := LoopPath.DeviceIn(s, a, b, LoopPath.Trial, LoopPath.Trial);
    var table := TableOf(B.Listing(d));
    Reads(s, t, x, d);
    u, y := Next(t, Execute), x.(d := d, reply := Some(table), done := true);
    var c := y.o.ctx.(device := Some(table));
    UpdatePath.BootSeen(s.plan, c, Targets(s));
    BootDecides(s.plan, y.o.ctx, table);
    var judged := InspectBoot(s.plan, c);
    Hears(s, u, y, StateRead(Some(table)), judged);
    u, y := Next(u, Deliver(StateRead(Some(table)), 0)), y.(o := judged, reply := None, done := false);
  }

  /** The confirm is taken, and the device begins to commit its own image. */
  lemma Commits(s: Scene, a: B.Content, b: B.Content, t: Trace, x: Spot) returns (u: Trace, y: Spot)
    requires Smooth(s, a, b) && |s.orig.images| == 2 && Here(s, t, x) && !x.done
    requires x.d == LoopPath.DeviceIn(s, a, b, LoopPath.Trial, LoopPath.Trial)
    requires x.o.next.Confirming? && x.o.effect.Confirm? && x.o.ctx.current == 0
    requires |x.o.ctx.targets| == 2 && (forall k :: 0 <= k < 2 ==> x.o.ctx.targets[k].target == Targets(s)[k])
    requires !x.o.ctx.targets[1].inTrial
    ensures Here(s, u, y) && !y.done && y.d == LoopPath.DeviceIn(s, a, b, LoopPath.Kept, LoopPath.Commits)
    ensures y.o.next.VerifyingConfirmed? && y.o.effect.ReadState?
    ensures |y.o.ctx.targets| == 2 && (forall k :: 0 <= k < 2 ==> y.o.ctx.targets[k].target == Targets(s)[k])
  {
    hide Here, B.HashOf, Fits, LoopPath.DeviceIn, B.SetState, B.Listing, TableOf, Decide, AfterConfirm;
    TwoTargets(s, a, b);
    LoopPath.AppConfirmed(s, a, b);
    LoopPath.TableShows(s, a, b, LoopPath.Kept, LoopPath.Commits);
    var d := LoopPath.DeviceIn(s, a, b, LoopPath.Kept, LoopPath.Commits);
    var table := TableOf(B.Listing(d));
    Sets(s, t, x, d);
    u, y := Next(t, Execute), x.(d := d, reply := Some(table), done := true);
    var c := y.o.ctx.(device := Some(table));
    UpdatePath.ConfirmDone(c, Targets(s));
    ConfirmDecides(s.plan, y.o.ctx, table);
    var confirmed := AfterConfirm(c);
    Hears(s, u, y, Confirmed(Some(table)), confirmed);
    u, y := Next(u, Deliver(Confirmed(Some(table)), 0)), y.(o := confirmed, reply := None, done := false);
  }

  /** The next read finds both kept. */
  lemma Ends(s: Scene, a: B.Content, b: B.Content, t: Trace, x: Spot) returns (u: Trace, y: Spot)
    requires Smooth(s, a, b) && |s.orig.images| == 2 && Here(s, t, x) && !x.done
    requires x.d == LoopPath.DeviceIn(s, a, b, LoopPath.Kept, LoopPath.Commits)
    requires x.o.next.VerifyingConfirmed? && x.o.effect.ReadState?
    requires |x.o.ctx.targets| == 2 && (forall k :: 0 <= k < 2 ==> x.o.ctx.targets[k].target == Targets(s)[k])
    ensures Here(s, u, y) && y.o.next.Completed? && y.d == LoopPath.DeviceIn(s, a, b, LoopPath.Kept, LoopPath.Kept)
  {
    hide Here, B.HashOf, Fits, LoopPath.DeviceIn, B.AdvanceApplies, B.Listing, TableOf, Decide, ConfirmVerified,
        Runs, Keeps;
    TwoTargets(s, a, b);
    LoopPath.CommittingRead(s, a, b);
    LoopPath.TableShows(s, a, b, LoopPath.Kept, LoopPath.Kept);
    var d := LoopPath.DeviceIn(s, a, b, LoopPath.Kept, LoopPath.Kept);
    var table := TableOf(B.Listing(d));
    Reads(s, t, x, d);
    u, y := Next(t, Execute), x.(d := d, reply := Some(table), done := true);
    var c := y.o.ctx.(device := Some(table));
    UpdatePath.AllDone(c, Targets(s));
    KeptDecides(s.plan, y.o.ctx, table);
    var verified := ConfirmVerified(c);
    Hears(s, u, y, StateRead(Some(table)), verified);
    u, y := Next(u, Deliver(StateRead(Some(table)), 0)), y.(o := verified, reply := None, done := false);
  }

  /**
    Whatever the two targets and whatever the device runs before, there is a lawful trace that completes
    the update with both images on their targets and kept.
   */
  lemma SomeTraceCompletes(s: Scene, a: B.Content, b: B.Content) returns (t: Trace)
    requires Smooth(s, a, b)
    ensures Lawful(s, t) && At(s.plan, WorldAt(s, t).r).state.Completed?
    ensures var d := WorldAt(s, t).d;
            && |d.images| == 2 && KeptForGood(s, d) && DeviceRuns(s, d) && d.images[1].swap.NoSwap?
            && d.images[0].secondary == s.orig.images[0].primary && d.images[1].secondary == s.orig.images[1].primary
  {
    hide Here, Smooth, LoopPath.DeviceIn, UpdatePath.Staging, B.HashOf;
    var y;
    t, y := Stages(s, a, b);
    t, y := Boots(s, a, b, t, y);
    t, y := Confirms(s, a, b, t, y);
    t, y := Commits(s, a, b, t, y);
    t, y := Ends(s, a, b, t, y);
    Arrived(s, t, y);
    BothKept(s, a, b);
  }

  lemma Arrived(s: Scene, t: Trace, y: Spot)
    requires Here(s, t, y)
    ensures Lawful(s, t) && WorldAt(s, t).d == y.d && At(s.plan, WorldAt(s, t).r).state == y.o.next
  {
    hide At;
  }

  lemma BothKept(s: Scene, a: B.Content, b: B.Content)
    requires Smooth(s, a, b)
    ensures |s.orig.images| == 2
    ensures var d := LoopPath.DeviceIn(s, a, b, LoopPath.Kept, LoopPath.Kept);
            && KeptForGood(s, d) && DeviceRuns(s, d) && d.images[1].swap.NoSwap?
            && d.images[0].secondary == s.orig.images[0].primary && d.images[1].secondary == s.orig.images[1].primary
  {
    hide B.HashOf, B.Carries;
  }
}
