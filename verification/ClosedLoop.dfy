/**
  The update machine against the device it updates. Requests are executed by the device, in time or long
  after the machine gave them up, their answers are delivered or lost, and the device reboots some time
  after it took the reset.
 */
module ClosedLoop {
  import opened Common
  import opened UpdateTypes
  import opened UpdateMachine
  import opened UpdateInvariant
  import opened UpdateSteps
  import opened UpdateRuns
  import opened UpdateTheorems
  import opened LoopDevice
  import B = BootModel
  import Staging = UpdateStaging
  import FinalTable = UpdateFinalTable
  import Recovery = UpdateRecovery

  /**
    The machine's run so far and the device. `reply` is the table of an executed request whose answer
    is still on its way; `done` says that the outstanding request has been executed; `late` are earlier
    requests that have not been, and may still be.
   */
  datatype World = World(r: Run, d: B.Device, reply: Option<SlotTable>, done: bool, late: seq<Step>,
                         resetTaken: bool, rebooted: bool)

  datatype Move =
    | Execute
    | ExecuteLate(k: nat)
    | Write(image: nat, content: B.Content)
    | Deliver(event: Event, now: int)
    | Restart

  function Opening(s: Scene): World {
    World(Begin(Targets(s)), s.orig, None, false, [], false, false)
  }

  /** The step whose request is outstanding, with its parameters. */
  function Request(plan: Plan, r: Run): Step {
    if r.Begin? then Step(Idle, Nothing, 0, 0, 0, 0, [])
    else if LastStep(plan, r).effect.Nothing? then Request(plan, r.before)
    else LastStep(plan, r)
  }

  predicate IsUpload(effect: Effect) {
    effect.StartUpload? || effect.ResumeUpload?
  }

  predicate IsReset(effect: Effect) {
    effect.Reset? || effect.ForceReset?
  }

  /** The requests a device executes in one go. */
  predicate IsExecuted(effect: Effect) {
    effect.ReadState? || effect.MarkForTest? || effect.Confirm? || IsReset(effect)
  }

  /**
    What can happen next. A request is executed at most once, while it is outstanding or at any time
    later; an upload writes in as many pieces as it likes while it is outstanding; an answer that carries
    a table carries the one the device gave, and any other answer or failure may come at any time; the
    device reboots once, some time after it took the reset.
   */
  predicate Possible(s: Scene, w: World, move: Move) {
    match move
    case Execute => !w.done && IsExecuted(Request(s.plan, w.r).effect)
    case ExecuteLate(k) => k < |w.late|
    case Write(image, content) => IsUpload(Request(s.plan, w.r).effect) && MayUpload(s, image, content)
    case Deliver(event, now) => Answers(Outstanding(s.plan, w.r), event)
        && (CarriesTable(event) ==> w.reply.Some? && event.table == w.reply)
    case Restart => w.resetTaken && !w.rebooted
  }

  /** The device once it has carried out a request, and the table it answers with. */
  function CarriedOut(d: B.Device, q: Step): (r: (B.Device, Option<SlotTable>))
    requires B.Valid(d)
    ensures B.Valid(r.0) && |r.0.images| == |d.images|
  {
    if q.effect.ReadState? then
      var e := B.AdvanceApplies(d);
      (e, Some(TableOf(B.Listing(e))))
    else if q.effect.MarkForTest? || q.effect.Confirm? then
      var x := B.SetState(d, Some(q.hash), q.effect.Confirm?);
      (x.0, if x.1.Accepted? then Some(TableOf(B.Listing(x.0))) else None)
    else (d, None)
  }

  /** The world once the device has carried out `q`. */
  function Carried(w: World, q: Step): World
    requires B.Valid(w.d)
  {
    w.(d := CarriedOut(w.d, q).0, resetTaken := w.resetTaken || IsReset(q.effect))
  }

  /** ... when `q` is the outstanding request. */
  function Executed(s: Scene, w: World): World
    requires B.Valid(w.d)
  {
    var q := Request(s.plan, w.r);
    Carried(w, q).(reply := if IsReset(q.effect) then w.reply else CarriedOut(w.d, q).1, done := true)
  }

  /** The requests left behind once the next one is sent. */
  function LeftBehind(s: Scene, w: World): seq<Step> {
    var q := Request(s.plan, w.r);
    if w.done || !IsExecuted(q.effect) then w.late else w.late + [q]
  }

  function Delivered(s: Scene, w: World, event: Event, now: int): World {
    var r := Then(w.r, event, now);
    if LastStep(s.plan, r).effect.Nothing? then w.(r := r)
    else w.(r := r, reply := None, done := false, late := LeftBehind(s, w))
  }

  function Moved(s: Scene, w: World, move: Move): World
    requires B.Valid(w.d) && |w.d.images| == 2 && Possible(s, w, move)
  {
    match move
    case Execute => Executed(s, w)
    case ExecuteLate(k) => Carried(w, w.late[k]).(late := w.late[..k] + w.late[k + 1..])
    case Write(image, content) => w.(d := Uploaded(w.d, image, content))
    case Deliver(event, now) => Delivered(s, w, event, now)
    case Restart => w.(d := B.Reboot(w.d), rebooted := true)
  }

  // --- What every move keeps ---------------------------------------------------------------------

  function FactsIn(s: Scene, w: World): Facts
    requires |w.d.images| == 2
  {
    FactsOf(s, w.rebooted, w.d)
  }

  /** Where in the update's order the client image comes. */
  function ClientAt(s: Scene): nat {
    if s.clientFirst then 0 else 1
  }

  /** The machine still works on the two targets it was given. */
  predicate Aims(s: Scene, c: Context) {
    |c.targets| == 2 && c.targets[ClientAt(s)].target == s.client && c.targets[1 - ClientAt(s)].target == s.device
  }

  /** Every table the machine has acted on, or is about to receive, is true of the device. */
  ghost predicate Informed(s: Scene, r: Run, f: Facts) {
    && TableTrue(s, f, Table(At(s.plan, r).ctx))
    && TableTrue(s, f, BootTable(s.plan, r))
    && TableTrue(s, f, ApplyTable(s.plan, r))
    && (ShowedClientsKept(r, At(s.plan, r).ctx.targets) ==> f.clientKept)
  }

  /** The outstanding request names one of the targets, and a confirm comes only once both run. */
  predicate Aimed(s: Scene, q: Step, f: Facts) {
    && (q.effect.MarkForTest? ==> q.hash == s.client.hash || q.hash == s.device.hash)
    && (q.effect.Confirm? ==> q.hash == s.client.hash && f.clientRuns && f.deviceRuns)
  }

  ghost predicate Steady(s: Scene, w: World) {
    && Fits(s) && Disciplined(s.plan, w.r) && DeviceSound(s, w.rebooted, w.d)
    && Aims(s, At(s.plan, w.r).ctx)
    && (w.rebooted ==> w.resetTaken)
    && (w.resetTaken ==> !PreBoot(At(s.plan, w.r).state, At(s.plan, w.r).ctx))
    && Informed(s, w.r, FactsIn(s, w))
    && (w.reply.Some? ==> TableTrue(s, FactsIn(s, w), w.reply.value))
    && Aimed(s, Request(s.plan, w.r), FactsIn(s, w))
  }

  /** A request that may still be carried out: it would be as harmless now as when it was sent. */
  predicate Harmless(s: Scene, q: Step, m: MachineState, f: Facts) {
    && IsExecuted(q.effect) && Aimed(s, q, f)
    && (IsReset(q.effect) ==> !PreBoot(m.state, m.ctx) && f.clientMarked)
  }

  /** The outstanding request is a mark of the client image. */
  predicate MarksClient(s: Scene, q: Step) {
    q.effect.MarkForTest? && q.hash == s.client.hash
  }

  /** A mark is outstanding only in its state, and names the current target. */
  predicate MarkNamed(q: Step, m: MachineState) {
    q.effect.MarkForTest? ==>
      m.state.MarkingForTest? && m.ctx.current < |m.ctx.targets| && q.hash == m.ctx.targets[m.ctx.current].target.hash
  }

  /** The reset is only ever taken with the client image marked, and whatever is late is harmless. */
  ghost predicate Tracked(s: Scene, w: World)
    requires |w.d.images| == 2
  {
    var f, q := FactsIn(s, w), Request(s.plan, w.r);
    && FinalTable.About(w.r, Targets(s)) && MarkNamed(q, At(s.plan, w.r))
    && (w.resetTaken ==> f.clientMarked)
    && (Staging.Evidenced(s.plan, w.r, ClientAt(s)) ==> f.clientMarked)
    && (w.reply.Some? && MarksClient(s, q) ==> f.clientMarked)
    && forall k :: 0 <= k < |w.late| ==> Harmless(s, w.late[k], At(s.plan, w.r), f)
  }

  ghost predicate Sound(s: Scene, w: World) {
    Steady(s, w) && |w.d.images| == 2 && Tracked(s, w)
  }

  lemma OrigSound(s: Scene)
    requires Fits(s)
    ensures DeviceSound(s, false, s.orig)
  {
    hide B.HashOf, B.Carries;
  }

  lemma OpeningAims(s: Scene)
    ensures var r := Begin(Targets(s));
            var m := At(s.plan, r);
            && Disciplined(s.plan, r) && Aims(s, m.ctx) && Table(m.ctx) == []
            && BootTable(s.plan, r) == [] && ApplyTable(s.plan, r) == [] && !ShowedClientsKept(r, m.ctx.targets)
            && Request(s.plan, r).effect.Nothing?
  {
  }

  lemma OpeningSteady(s: Scene)
    requires Fits(s)
    ensures Steady(s, Opening(s))
  {
    hide At, DeviceSound, TableTrue, Fits, Aims, Disciplined, BootTable, ApplyTable, ShowedClientsKept, Request,
        FactsOf;
    OrigSound(s);
    OwnedBy(s, false, s.orig);
    OpeningAims(s);
    EmptyTrue(s, FactsIn(s, Opening(s)));
  }

  lemma OpeningSound(s: Scene)
    requires Fits(s)
    ensures Sound(s, Opening(s))
  {
    hide Steady, Tracked, DeviceSound, Fits;
    OpeningSteady(s);
    OrigSound(s);
    OwnedBy(s, false, s.orig);
    OpeningTracked(s);
  }

  lemma OpeningTracked(s: Scene)
    requires |s.orig.images| == 2
    ensures Tracked(s, Opening(s))
  {
    hide FactsOf;
  }

  /** The request outstanding is the one the machine's state expects. */
  lemma {:induction false} RequestIsOutstanding(plan: Plan, r: Run)
    ensures Request(plan, r).effect == Outstanding(plan, r)
  {
    hide LastStep;
    if r.Begin? {
    } else {
      RequestIsOutstanding(plan, r.before);
    }
  }

  /** As long as nothing known about the device is lost, a steady world stays steady whatever the device does. */
  lemma DeviceMoves(s: Scene, w: World, v: World)
    requires Steady(s, w) && v.r == w.r
    requires DeviceSound(s, v.rebooted, v.d) && Grown(FactsIn(s, w), FactsIn(s, v))
    requires v.rebooted ==> v.resetTaken
    requires v.resetTaken ==> !PreBoot(At(s.plan, w.r).state, At(s.plan, w.r).ctx)
    requires v.reply == w.reply || (v.reply.Some? ==> TableTrue(s, FactsIn(s, v), v.reply.value))
    ensures Steady(s, v)
  {
    hide At, DeviceSound, TableTrue, FactsOf, Disciplined, BootTable, ApplyTable, Request, ShowedClientsKept, Fits,
        PreBoot;
    OwnedBy(s, w.rebooted, w.d);
    OwnedBy(s, v.rebooted, v.d);
    var f, g := FactsIn(s, w), FactsIn(s, v);
    TableStays(s, f, g, Table(At(s.plan, w.r).ctx));
    TableStays(s, f, g, BootTable(s.plan, w.r));
    TableStays(s, f, g, ApplyTable(s.plan, w.r));
    if w.reply.Some? {
      TableStays(s, f, g, w.reply.value);
    }
  }

  /** Nor is anything lost track of, if a reset is taken only with the client image marked. */
  lemma TrackedMoves(s: Scene, w: World, v: World)
    requires |w.d.images| == 2 && |v.d.images| == 2 && Tracked(s, w) && v.r == w.r
    requires Grown(FactsIn(s, w), FactsIn(s, v))
    requires forall k :: 0 <= k < |v.late| ==> v.late[k] in w.late
    requires v.resetTaken ==> w.resetTaken || FactsIn(s, v).clientMarked
    requires v.reply == w.reply
          || (v.reply.Some? && MarksClient(s, Request(s.plan, w.r)) ==> FactsIn(s, v).clientMarked)
    ensures Tracked(s, v)
  {
    hide At, FactsOf, Request, PreBoot, Staging.Evidenced, FinalTable.About, MarkNamed, MarksClient;
  }

  /** Staging requests are outstanding only while the update stages, resets only afterwards. */
  lemma RequestPhase(s: Scene, w: World)
    requires Steady(s, w)
    ensures var effect := Request(s.plan, w.r).effect;
            && (effect.MarkForTest? || IsUpload(effect) ==> !w.resetTaken && !w.rebooted)
            && (effect.Reset? || effect.ForceReset? ==> !PreBoot(At(s.plan, w.r).state, At(s.plan, w.r).ctx))
  {
    hide At, DeviceSound, Informed, Fits, Request, Outstanding, Invariant, TimersFit, FactsIn, TableTrue, Aimed;
    RequestIsOutstanding(s.plan, w.r);
    RunGood(s.plan, w.r);
  }

  /** What the device makes of a request, now or later. */
  lemma RequestKeeps(s: Scene, rebooted: bool, d: B.Device, q: Step)
    requires Fits(s) && DeviceSound(s, rebooted, d) && |d.images| == 2 && B.Valid(d)
    requires Aimed(s, q, FactsOf(s, rebooted, d))
    ensures var x := CarriedOut(d, q);
            && DeviceSound(s, rebooted, x.0) && Grown(FactsOf(s, rebooted, d), FactsOf(s, rebooted, x.0))
            && (x.1.Some? ==> TableTrue(s, FactsOf(s, rebooted, x.0), x.1.value))
            && (x.1.Some? && MarksClient(s, q) ==> FactsOf(s, rebooted, x.0).clientMarked)
  {
    hide DeviceSound, FactsOf, TableTrue, B.AdvanceApplies, B.SetState, B.Listing, TableOf, Fits;
    if q.effect.ReadState? {
      ReadKeeps(s, rebooted, d);
    } else if q.effect.MarkForTest? {
      if rebooted {
        LateMarkKeeps(s, d, q.hash);
        MarkedSince(s, B.SetState(d, Some(q.hash), false).0);
      } else {
        MarkKeeps(s, d, q.hash);
      }
    } else if q.effect.Confirm? {
      RunsNow(s, rebooted, d);
      ConfirmKeeps(s, d);
    } else {
      GrownItself(FactsOf(s, rebooted, d));
    }
    ListingTableTrue(s, rebooted, CarriedOut(d, q).0);
  }

  lemma MarkedSince(s: Scene, d: B.Device)
    requires |d.images| == 2
    ensures FactsOf(s, true, d).clientMarked
  {
  }

  lemma GrownItself(f: Facts)
    ensures Grown(f, f)
  {
  }

  lemma CarriedSteady(s: Scene, w: World, q: Step)
    requires Steady(s, w) && |w.d.images| == 2 && Harmless(s, q, At(s.plan, w.r), FactsIn(s, w))
    ensures B.Valid(w.d) && Steady(s, Carried(w, q)) && Grown(FactsIn(s, w), FactsIn(s, Carried(w, q)))
  {
    hide At, Request, DeviceSound, Informed, PreBoot, Disciplined, FactsOf, TableTrue, CarriedOut, Fits, Aims, Grown;
    OwnedBy(s, w.rebooted, w.d);
    RequestKeeps(s, w.rebooted, w.d, q);
    DeviceMoves(s, w, Carried(w, q));
  }

  lemma LateSound(s: Scene, w: World, k: nat)
    requires Sound(s, w) && k < |w.late|
    ensures B.Valid(w.d) && Sound(s, Moved(s, w, ExecuteLate(k)))
  {
    hide Steady, FactsOf, CarriedOut, Request, At, Grown, Aimed, Tracked;
    var q := w.late[k];
    LateHarmless(s, w, k);
    CarriedSteady(s, w, q);
    var v := Moved(s, w, ExecuteLate(k));
    SteadyAlike(s, Carried(w, q), v);
    MarkedGrows(s, w, Carried(w, q));
    assert forall j :: 0 <= j < |v.late| ==> v.late[j] in w.late;
    TrackedMoves(s, w, v);
  }

  lemma LateHarmless(s: Scene, w: World, k: nat)
    requires |w.d.images| == 2 && Tracked(s, w) && k < |w.late|
    ensures Harmless(s, w.late[k], At(s.plan, w.r), FactsIn(s, w))
  {
    hide At, FactsIn, Harmless;
  }

  /** What is late does not matter to steadiness. */
  lemma SteadyAlike(s: Scene, w: World, v: World)
    requires Steady(s, w) && v == w.(late := v.late)
    ensures Steady(s, v)
  {
    hide At, FactsOf, DeviceSound, Informed, TableTrue, Request, Aimed, PreBoot, Disciplined, Fits;
  }

  lemma MarkedGrows(s: Scene, w: World, v: World)
    requires |w.d.images| == 2 && |v.d.images| == 2 && Grown(FactsIn(s, w), FactsIn(s, v))
    ensures FactsIn(s, w).clientMarked ==> FactsIn(s, v).clientMarked
  {
    hide FactsIn;
  }

  /** The outstanding request is harmless: a reset is asked for only on evidence that the client image is marked. */
  lemma RequestHarmless(s: Scene, w: World)
    requires Sound(s, w) && IsExecuted(Request(s.plan, w.r).effect)
    ensures Harmless(s, Request(s.plan, w.r), At(s.plan, w.r), FactsIn(s, w))
  {
    hide At, Request, DeviceSound, Informed, Disciplined, FactsIn, TableTrue, Aimed, PreBoot, Outstanding, Fits,
        Staging.Evidenced, FinalTable.About;
    RequestPhase(s, w);
    if IsReset(Request(s.plan, w.r).effect) {
      RequestIsOutstanding(s.plan, w.r);
      ResetNotUploadOnly(s.plan, w.r);
      ScenePackage(s, w.r);
      Staging.ResetOnEvidence(s.plan, w.r, Targets(s), ClientAt(s));
    }
  }

  lemma ResetNotUploadOnly(plan: Plan, r: Run)
    requires Disciplined(plan, r) && IsReset(Outstanding(plan, r))
    ensures !plan.mode.UploadOnly?
  {
    hide At, Outstanding, TimersFit;
    RunGood(plan, r);
  }

  lemma ScenePackage(s: Scene, r: Run)
    requires Fits(s) && Disciplined(s.plan, r) && FinalTable.About(r, Targets(s)) && !s.plan.mode.UploadOnly?
    ensures Staging.Package(s.plan, r, Targets(s)) && |Targets(s)| == 2
  {
    hide Owned, B.Carries, Disciplined, FinalTable.About;
  }

  lemma ExecuteSound(s: Scene, w: World)
    requires Sound(s, w) && Possible(s, w, Execute)
    ensures B.Valid(w.d) && Sound(s, Executed(s, w))
  {
    hide At, Request, DeviceSound, Informed, PreBoot, Disciplined, FactsOf, TableTrue, CarriedOut, Fits, Aims, Grown,
        Tracked, Aimed;
    RequestHarmless(s, w);
    OwnedBy(s, w.rebooted, w.d);
    var q := Request(s.plan, w.r);
    RequestKeeps(s, w.rebooted, w.d, q);
    var v := Executed(s, w);
    DeviceMoves(s, w, v);
    MarkedGrows(s, w, v);
    TrackedMoves(s, w, v);
  }

  lemma RunsNow(s: Scene, rebooted: bool, d: B.Device)
    requires |d.images| == 2 && FactsOf(s, rebooted, d).clientRuns && FactsOf(s, rebooted, d).deviceRuns
    ensures rebooted && ClientRuns(s, d) && DeviceRuns(s, d)
  {
  }

  lemma WriteSound(s: Scene, w: World, image: nat, content: B.Content)
    requires Sound(s, w) && Possible(s, w, Write(image, content))
    ensures |w.d.images| == 2 && Sound(s, w.(d := Uploaded(w.d, image, content)))
  {
    hide At, Request, DeviceSound, Informed, PreBoot, Disciplined, FactsOf, TableTrue, MayUpload, Tracked, Aimed, Fits,
        Grown;
    assert image < 2 by { ImageInRange(s, image, content); }
    OwnedBy(s, w.rebooted, w.d);
    RequestPhase(s, w);
    UploadKeeps(s, w.d, image, content);
    OwnedBy(s, false, Uploaded(w.d, image, content));
    DeviceMoves(s, w, w.(d := Uploaded(w.d, image, content)));
    TrackedMoves(s, w, w.(d := Uploaded(w.d, image, content)));
  }

  lemma ImageInRange(s: Scene, image: nat, content: B.Content)
    requires MayUpload(s, image, content)
    ensures image < 2
  {
  }

  lemma RestartSound(s: Scene, w: World)
    requires Sound(s, w) && Possible(s, w, Restart)
    ensures B.Valid(w.d) && Sound(s, w.(d := B.Reboot(w.d), rebooted := true))
  {
    hide At, Request, DeviceSound, Informed, PreBoot, Disciplined, FactsOf, TableTrue, B.Reboot, Aimed, Fits, Grown;
    OwnedBy(s, w.rebooted, w.d);
    MarkedBefore(s, w.d);
    RestartKeeps(s, w.d);
    OwnedBy(s, true, B.Reboot(w.d));
    hide Tracked;
    var v := w.(d := B.Reboot(w.d), rebooted := true);
    DeviceMoves(s, w, v);
    TrackedMoves(s, w, v);
  }

  lemma MarkedBefore(s: Scene, d: B.Device)
    requires |d.images| == 2
    ensures FactsOf(s, false, d).clientMarked <==> d.images[0].swap.Test?
  {
  }

  // --- Delivering an answer ----------------------------------------------------------------------

  /** The part of one event that the loop relies on. */
  lemma EventFrame(plan: Plan, r: Run)
    requires r.Then? && Disciplined(plan, r)
    ensures var b, m := At(plan, r.before), At(plan, r);
            && (NoBuilds(b.ctx) ==> SameTargets(b.ctx, m.ctx))
            && (!PreBoot(b.state, b.ctx) ==> !PreBoot(m.state, m.ctx))
            && (m.ctx.device == b.ctx.device || (CarriesTable(r.event) && m.ctx.device == r.event.table))
  {
    hide At, LastStep, Good, Grounds, Disciplined, PreBoot;
    Stepped(plan, r);
  }

  lemma AimsKept(s: Scene, c: Context, d: Context)
    requires Fits(s) && Aims(s, c) && (NoBuilds(c) ==> SameTargets(c, d))
    ensures Aims(s, d) && SameTargets(c, d)
  {
    hide Owned, B.Carries;
  }

  lemma Disciplines(s: Scene, w: World, event: Event, now: int)
    requires Steady(s, w) && Possible(s, w, Deliver(event, now))
    ensures Disciplined(s.plan, Then(w.r, event, now))
  {
    hide At, DeviceSound, Informed, FactsIn, TableTrue, Aimed, Answers, PreBoot, Request, Fits, Outstanding;
  }

  lemma DeliverFrame(s: Scene, w: World, event: Event, now: int)
    requires Steady(s, w) && Possible(s, w, Deliver(event, now))
    ensures var r := Then(w.r, event, now);
            var b, m := At(s.plan, w.r), At(s.plan, r);
            && Disciplined(s.plan, r) && Aims(s, m.ctx) && SameTargets(b.ctx, m.ctx)
            && (w.resetTaken ==> !PreBoot(m.state, m.ctx))
            && (m.ctx.device == b.ctx.device || (CarriesTable(event) && m.ctx.device == event.table))
  {
    hide At, DeviceSound, Informed, FactsIn, TableTrue, Aimed, PreBoot, Possible, Disciplined, Request, Fits, Aims,
        SameTargets, NoBuilds;
    Disciplines(s, w, event, now);
    EventFrame(s.plan, Then(w.r, event, now));
    AimsKept(s, At(s.plan, w.r).ctx, At(s.plan, Then(w.r, event, now)).ctx);
  }

  /** After an event every table the machine goes by is still true. */
  lemma InformedStays(s: Scene, r: Run, f: Facts, reply: Option<SlotTable>)
    requires r.Then? && Fits(s) && Informed(s, r.before, f)
    requires var b, m := At(s.plan, r.before), At(s.plan, r);
             && Aims(s, m.ctx) && SameTargets(b.ctx, m.ctx)
             && (m.ctx.device == b.ctx.device || (CarriesTable(r.event) && m.ctx.device == r.event.table))
    requires CarriesTable(r.event) ==> reply.Some? && r.event.table == reply && TableTrue(s, f, reply.value)
    ensures Informed(s, r, f)
  {
    hide At, TableTrue, Fits, Inspects, Aims, AllClientsKept;
    var b, m := At(s.plan, r.before), At(s.plan, r);
    if ShowedClientsKept(r, m.ctx.targets) {
      if ShowedClientsKept(r.before, m.ctx.targets) {
        ShowedAlike(r.before, m.ctx, b.ctx);
      } else {
        ShownKept(s, f, r.event.table.value, m.ctx);
      }
    }
  }

  lemma DeliverInformed(s: Scene, w: World, event: Event, now: int)
    requires Steady(s, w) && Possible(s, w, Deliver(event, now))
    ensures |w.d.images| == 2 && Informed(s, Then(w.r, event, now), FactsIn(s, w))
  {
    hide At, DeviceSound, FactsOf, TableTrue, Aimed, Answers, PreBoot, Disciplined, Request, Fits, Informed, Aims,
        SameTargets, Outstanding;
    OwnedBy(s, w.rebooted, w.d);
    DeliverFrame(s, w, event, now);
    InformedStays(s, Then(w.r, event, now), FactsIn(s, w), w.reply);
  }

  lemma ShownKept(s: Scene, f: Facts, t: SlotTable, c: Context)
    requires Fits(s) && Aims(s, c) && AllClientsKept(t, c.targets) && TableTrue(s, f, t)
    ensures f.clientKept
  {
    hide Keeps, Runs;
    assert Keeps(t, c.targets[ClientAt(s)].target);
  }

  /** A new request names one of the targets; a confirm names the client image, and both run. */
  lemma StepAimed(s: Scene, r: Run, f: Facts)
    requires r.Then? && Fits(s) && Disciplined(s.plan, r) && Aims(s, At(s.plan, r).ctx) && Informed(s, r, f)
    ensures Aimed(s, LastStep(s.plan, r), f)
  {
    hide At, ApplyEvent, Disciplined, BootTable, ApplyTable, Keeps, Runs, ShowedClientsKept, Owned;
    var m := At(s.plan, r);
    var q := LastStep(s.plan, r);
    if q.effect.MarkForTest? || q.effect.Confirm? {
      StepNames(s.plan, r);
      if q.effect.Confirm? {
        ConfirmComesLast(s.plan, r);
        assert m.ctx.current == ClientAt(s);
        assert Runs(ApplyTable(s.plan, r), m.ctx.targets[1 - ClientAt(s)].target);
      }
    }
  }

  lemma DeliverAimed(s: Scene, w: World, event: Event, now: int)
    requires Steady(s, w) && Possible(s, w, Deliver(event, now))
    ensures |w.d.images| == 2 && Aimed(s, Request(s.plan, Then(w.r, event, now)), FactsIn(s, w))
  {
    hide At, LastStep, DeviceSound, FactsOf, Aimed, TableTrue, PreBoot, Disciplined, Fits, Informed, Aims,
        SameTargets, Possible;
    OwnedBy(s, w.rebooted, w.d);
    DeliverFrame(s, w, event, now);
    DeliverInformed(s, w, event, now);
    StepAimed(s, Then(w.r, event, now), FactsIn(s, w));
  }

  lemma StepNames(plan: Plan, r: Run)
    requires r.Then? && (LastStep(plan, r).effect.MarkForTest? || LastStep(plan, r).effect.Confirm?)
    ensures var m := At(plan, r);
            m.ctx.current < |m.ctx.targets| && LastStep(plan, r).hash == m.ctx.targets[m.ctx.current].target.hash
  {
    hide ApplyEvent;
    NamesTheCurrent(plan, At(plan, r.before), r.event, r.now);
  }

  lemma DeliverSteady(s: Scene, w: World, event: Event, now: int)
    requires Steady(s, w) && Possible(s, w, Deliver(event, now))
    ensures Steady(s, Delivered(s, w, event, now))
  {
    hide At, LastStep, DeviceSound, FactsOf, Answers, PreBoot, Disciplined, Informed, TableTrue, Aimed, Request, Fits;
    DeliverFrame(s, w, event, now);
    DeliverInformed(s, w, event, now);
    DeliverAimed(s, w, event, now);
  }

  /** A step that asks for nothing leaves the machine's state and context alone. */
  lemma NothingChanges(plan: Plan, r: Run)
    requires r.Then? && Disciplined(plan, r) && LastStep(plan, r).effect.Nothing?
    ensures At(plan, r).state == At(plan, r.before).state && At(plan, r).ctx == At(plan, r.before).ctx
  {
    hide At, LastStep, Decide, Good, Transition, Disciplined;
    Stepped(plan, r);
    if !IsTerminal(At(plan, r.before).state) {
      Recovery.Decided(plan, r);
    }
  }

  /** A mark is asked for in its state and by the current target's hash, and stays so until it is answered. */
  lemma DeliverNames(s: Scene, w: World, event: Event, now: int)
    requires Disciplined(s.plan, Then(w.r, event, now)) && MarkNamed(Request(s.plan, w.r), At(s.plan, w.r))
    ensures MarkNamed(Request(s.plan, Then(w.r, event, now)), At(s.plan, Then(w.r, event, now)))
  {
    hide At, LastStep, Disciplined, Invariant, TimersFit;
    var r := Then(w.r, event, now);
    if LastStep(s.plan, r).effect.Nothing? {
      NothingChanges(s.plan, r);
    } else if LastStep(s.plan, r).effect.MarkForTest? {
      StepNames(s.plan, r);
      RequestIsOutstanding(s.plan, r);
      RunGood(s.plan, r);
    }
  }

  /** An answer to the mark of the client image comes only once the device has taken it. */
  lemma AnswerMarks(s: Scene, w: World, event: Event, now: int)
    requires Sound(s, w) && Possible(s, w, Deliver(event, now))
    requires Staging.AnswersMark(At(s.plan, w.r).state, event, At(s.plan, w.r).ctx, ClientAt(s))
    ensures FactsIn(s, w).clientMarked
  {
    hide At, Request, DeviceSound, Informed, Disciplined, FactsIn, TableTrue, Aimed, PreBoot, Fits, Staging.Evidenced,
        FinalTable.About, Invariant, TimersFit, Harmless;
    RunGood(s.plan, w.r);
    RequestIsOutstanding(s.plan, w.r);
  }

  lemma DeliverTracked(s: Scene, w: World, event: Event, now: int)
    requires Sound(s, w) && Possible(s, w, Deliver(event, now))
    ensures |w.d.images| == 2 && Tracked(s, Delivered(s, w, event, now))
  {
    hide At, LastStep, DeviceSound, FactsOf, Aimed, PreBoot, Disciplined, Informed, TableTrue, Fits, Harmless,
        MarkNamed, MarksClient, Aims, Possible, LeftBehind, Staging.Evidenced;
    var r := Then(w.r, event, now);
    DeliverFrame(s, w, event, now);
    DeliverNames(s, w, event, now);
    if Staging.Evidenced(s.plan, r, ClientAt(s)) {
      DeliverEvidence(s, w, event, now);
    }
    DeliverHarmless(s, w, event, now);
  }

  /** New evidence that the client image is marked is true. */
  lemma DeliverEvidence(s: Scene, w: World, event: Event, now: int)
    requires Sound(s, w) && Possible(s, w, Deliver(event, now))
    requires Staging.Evidenced(s.plan, Then(w.r, event, now), ClientAt(s))
    ensures FactsIn(s, w).clientMarked
  {
    hide At, Request, DeviceSound, FactsIn, Aimed, PreBoot, Disciplined, Fits, Harmless, MarkNamed, MarksClient,
        Staging.AnswersMark, Possible;
    var r := Then(w.r, event, now);
    if !Staging.Evidenced(s.plan, w.r, ClientAt(s)) {
      if Staging.AnswersMark(At(s.plan, w.r).state, event, At(s.plan, w.r).ctx, ClientAt(s)) {
        AnswerMarks(s, w, event, now);
      } else {
        DeliverFrame(s, w, event, now);
        DeliverInformed(s, w, event, now);
      }
    }
  }

  /** What was late stays harmless, and so does what is left behind now. */
  lemma DeliverHarmless(s: Scene, w: World, event: Event, now: int)
    requires Sound(s, w) && Possible(s, w, Deliver(event, now))
    ensures var late := Delivered(s, w, event, now).late;
            forall k :: 0 <= k < |late| ==> Harmless(s, late[k], At(s.plan, Then(w.r, event, now)), FactsIn(s, w))
  {
    hide At, LastStep, Request, DeviceSound, FactsIn, Aimed, PreBoot, Informed, TableTrue, Fits, Possible,
        Staging.Evidenced, FinalTable.About, Disciplined;
    Disciplines(s, w, event, now);
    EventFrame(s.plan, Then(w.r, event, now));
    if IsExecuted(Request(s.plan, w.r).effect) {
      RequestHarmless(s, w);
    }
  }

  // --- The closed loop ---------------------------------------------------------------------------

  /** A run of the loop: one move after another. */
  datatype Trace = Start | Next(before: Trace, move: Move)

  /** Every move was possible. */
  predicate Lawful(s: Scene, t: Trace)
    decreases t, 0
  {
    t.Next? ==> Lawful(s, t.before) && Ready(s, WorldAt(s, t.before), t.move)
  }

  predicate Ready(s: Scene, w: World, move: Move) {
    B.Valid(w.d) && |w.d.images| == 2 && Possible(s, w, move)
  }

  function WorldAt(s: Scene, t: Trace): World
    requires Lawful(s, t)
    decreases t, 1
  {
    match t
    case Start => Opening(s)
    case Next(before, move) => Moved(s, WorldAt(s, before), move)
  }

  lemma MoveSound(s: Scene, w: World, move: Move)
    requires Sound(s, w) && Possible(s, w, move)
    ensures B.Valid(w.d) && |w.d.images| == 2 && Sound(s, Moved(s, w, move))
  {
    OwnedBy(s, w.rebooted, w.d);
    hide Steady, Tracked, Possible, Executed, Carried;
    match move
    case Execute => ExecuteSound(s, w);
    case ExecuteLate(k) => LateSound(s, w, k);
    case Write(image, content) => WriteSound(s, w, image, content);
    case Deliver(event, now) =>
      DeliverSteady(s, w, event, now);
      DeliverTracked(s, w, event, now);
    case Restart => RestartSound(s, w);
  }

  lemma {:induction false} ReachedSound(s: Scene, t: Trace)
    requires Fits(s) && Lawful(s, t)
    ensures Sound(s, WorldAt(s, t))
  {
    hide Sound, Possible, Moved, Fits;
    match t
    case Start => OpeningSound(s);
    case Next(before, move) =>
      ReachedSound(s, before);
      MoveSound(s, WorldAt(s, before), move);
  }

  /** The client image runs its target and nothing is scheduled that would undo it. */
  predicate KeptForGood(s: Scene, d: B.Device)
    requires |d.images| == 2
  {
    ClientRuns(s, d) && d.images[0].swap.NoSwap?
  }

  /**
    No half package: however the loop runs, the client image is kept for good only if the device
    applied its own image and runs it; and once rebooted without that, the next reboot brings the
    client image's old content back.
   */
  lemma NoHalfPackage(s: Scene, t: Trace)
    requires Fits(s) && Lawful(s, t)
    ensures var w := WorldAt(s, t);
            && B.Valid(w.d) && |w.d.images| == 2
            && (KeptForGood(s, w.d) ==> DeviceRuns(s, w.d) && s.orig.images[1].device.value.applies)
            && (w.rebooted && !DeviceRuns(s, w.d) ==> B.Reboot(w.d).images[0].primary == s.orig.images[0].primary)
  {
    ReachedSound(s, t);
    var w := WorldAt(s, t);
    OwnedBy(s, w.rebooted, w.d);
    hide WorldAt, Lawful, Informed, Fits, DeviceSound, ClientRuns, DeviceRuns, B.Reboot;
    NoHalf(s, w.rebooted, w.d);
  }

  /**
    A completed update is completed on the device: both images run their targets and nothing is scheduled for
    either.
   */
  lemma CompletedOnDevice(s: Scene, t: Trace)
    requires Fits(s) && Lawful(s, t)
    requires var m := At(s.plan, WorldAt(s, t).r);
             m.state.Completed? && !s.plan.mode.UploadOnly? && !m.ctx.mode.mode.DirectXip?
    ensures var w := WorldAt(s, t);
            |w.d.images| == 2 && KeptForGood(s, w.d) && DeviceRuns(s, w.d) && w.d.images[1].swap.NoSwap?
  {
    ReachedSound(s, t);
    var w := WorldAt(s, t);
    OwnedBy(s, w.rebooted, w.d);
    hide WorldAt, Lawful, Fits, DeviceSound, ClientRuns, DeviceRuns, At, Keeps, Runs, ShowedClientsKept;
    CompletedIsTrue(s.plan, w.r);
    CompletedDevicesKept(s.plan, w.r);
    var m := At(s.plan, w.r);
    assert m.ctx.targets[1 - ClientAt(s)].target == s.device;
    assert Keeps(Table(m.ctx), s.device);
  }
}
