/**
  What planning decides about an image, stated on the rows of the last table: which of two builds it is
  about, and whether it is skipped, marked or uploaded.
 */
module UpdatePlanning {
  import opened Common
  import opened UpdateTypes
  import opened UpdateMachine
  import opened UpdateInvariant
  import opened UpdateSteps
  import opened UpdateRuns
  import opened UpdateTheorems
  import opened UpdateRows
  import opened UpdateVerdicts

  // --- Builds --------------------------------------------------------------------------------------

  /** Row `k` is the first of the image in this slot. */
  predicate SlotRow(t: SlotTable, image: nat, number: nat, k: nat) {
    && k < |t| && t[k].image == image && t[k].slot == number
    && forall j :: 0 <= j < k ==> t[j].image != image || t[j].slot != number
  }

  /** The slot holds the build. */
  predicate InPlace(t: SlotTable, image: nat, number: nat, build: Build) {
    exists k :: 0 <= k < |t| && SlotRow(t, image, number, k) && t[k].hash == Some(build.hash)
  }

  /** The image runs from this slot. */
  predicate RunsFrom(t: SlotTable, image: nat, number: nat) {
    exists k :: 0 <= k < |t| && RunningRow(t, image, k) && t[k].slot == number
  }

  /** ... and the table's first row of that slot is the one that runs. */
  predicate RunsThere(t: SlotTable, image: nat, number: nat) {
    exists k :: 0 <= k < |t| && RunningRow(t, image, k) && SlotRow(t, image, number, k)
  }

  lemma {:induction false} SlotRowFrom(t: SlotTable, image: nat, number: nat, i: nat)
    requires i <= |t|
    ensures forall k :: i <= k < ListedFrom(t, image, number, i) ==> t[k].image != image || t[k].slot != number
    decreases |t| - i
  {
    if i < |t| && !(t[i].image == image && t[i].slot == number) {
      SlotRowFrom(t, image, number, i + 1);
    }
  }

  lemma SlotRowFound(t: SlotTable, image: nat, number: nat)
    ensures var at := ListedFrom(t, image, number, 0);
            && at <= |t| && (at < |t| ==> SlotRow(t, image, number, at))
            && forall k :: 0 <= k && SlotRow(t, image, number, k) ==> k == at
  {
    SlotRowFrom(t, image, number, 0);
    var at := ListedFrom(t, image, number, 0);
    assert forall k :: 0 <= k < at ==> !SlotRow(t, image, number, k);
    assert forall k :: at < k ==> !SlotRow(t, image, number, k);
  }

  /**
    The build that is in place is the one an update is about, and of two the one that runs; if neither is, the
    one that belongs where nothing runs.
   */
  lemma BuildByRows(t: SlotTable, image: nat, builds: (Build, Build))
    ensures var first := InPlace(t, image, 2 * image, builds.0);
            var second := InPlace(t, image, 2 * image + 1, builds.1);
            ChosenBuild(t, image, builds)
            == if first && second then (if RunsThere(t, image, 2 * image + 1) then 1 else 0)
               else if second then 1
               else if first then 0
               else if RunsFrom(t, image, 2 * image + 1) then 0
               else 1
  {
    RunningRowFound(t, image);
    SlotRowFound(t, image, image * 2);
    SlotRowFound(t, image, image * 2 + 1);
    hide RunningRow, SlotRow, ListedFrom, Active;
  }

  /** A pair is settled in the modes that run in place, and refused in all others. */
  lemma BuildSettled(c: Context)
    requires c.current < |c.targets|
    requires c.targets[c.current].target.builds.Some? && !c.targets[c.current].chosenKnown
    ensures var mode, image := c.mode.mode, c.targets[c.current];
            match ChooseBuild(c)
            case Err(o) =>
              mode != DirectXip && mode != DirectXipWithRevert && Fails(o, InvalidArgument, c.swapScheduled)
            case Ok(d) =>
              && (mode == DirectXip || mode == DirectXipWithRevert)
              && d == c.(targets := d.targets) && d.targets == c.targets[c.current := d.targets[c.current]]
              && d.targets[c.current].chosenKnown
              && d.targets[c.current].chosen == ChosenBuild(Table(c), image.target.image, image.target.builds.value)
  {
    hide ChosenBuild;
  }

  // --- Needs ---------------------------------------------------------------------------------------

  /** The row that carries the file is the one that runs. */
  predicate FileRuns(t: SlotTable, target: Target) {
    exists k :: 0 <= k < |t| && FileRow(t, target, k) && RunningRow(t, target.image, k)
  }

  /** The slot of the row that carries the file. */
  predicate FileIn(t: SlotTable, target: Target, slot: nat) {
    exists k :: 0 <= k < |t| && FileRow(t, target, k) && t[k].slot == slot
  }

  /** Nothing is to be done: the file runs, is scheduled, or only has to be there. */
  predicate Skippable(plan: Plan, t: SlotTable, target: Target) {
    || FileRuns(t, target) || FileScheduled(t, target)
    || (HoldsFile(t, target) && plan.skipIfPresent && plan.mode == UploadOnly)
  }

  /** The file is there and only has to be marked. */
  predicate Markable(plan: Plan, t: SlotTable, target: Target) {
    && HoldsFile(t, target) && !FileRuns(t, target) && !FileScheduled(t, target)
    && plan.skipIfPresent && plan.mode != UploadOnly
  }

  lemma NeedByRows(plan: Plan, t: SlotTable, target: Target, entry: ImageReport)
    ensures match NeedOf(plan, t, target, entry)
            case Skip(noted, scheduled) =>
              && Skippable(plan, t, target)
              && (scheduled <==> !FileRuns(t, target) && FileScheduled(t, target) && plan.mode != UploadOnly)
              && (if !FileRuns(t, target) && FileScheduled(t, target) then
                    noted.uploadSlot.Some? && FileIn(t, target, noted.uploadSlot.value)
                  else noted.uploadSlot == entry.uploadSlot)
              && noted == entry.(uploadSkipped := true, uploadSlot := noted.uploadSlot)
            case Mark(slot) => Markable(plan, t, target) && FileIn(t, target, slot)
            case Upload => !Skippable(plan, t, target) && !Markable(plan, t, target)
  {
    RunningRowFound(t, target.image);
    FileRowFound(t, target);
    RowsRead(t, target);
    RowsBound(t, target);
    hide RunningRow, FileRow, Active, Holder;
  }

  // --- A planning step -----------------------------------------------------------------------------

  /**
    Where planning from image `from` on comes to a stop for an upload or a mark: at the first image that is not
    skipped, which is missing or only has to be marked.
   */
  predicate Planned(plan: Plan, t: SlotTable, from: nat, o: Outcome) {
    o.next.Uploading? || o.next.MarkingForTest? ==>
      && from <= o.ctx.current < |o.ctx.targets|
      && (forall k :: from <= k < o.ctx.current ==>
            Skippable(plan, t, o.ctx.targets[k].target) && o.ctx.targets[k].report.uploadSkipped)
      && var image := o.ctx.targets[o.ctx.current];
         if o.next.Uploading? then
           o.effect.StartUpload? && !Skippable(plan, t, image.target) && !Markable(plan, t, image.target)
         else
           && o.effect.MarkForTest? && Markable(plan, t, image.target)
           && image.report.uploadSkipped && image.report.uploadSlot.Some?
           && FileIn(t, image.target, image.report.uploadSlot.value)
  }

  lemma JudgedPlanned(plan: Plan, t: SlotTable, from: nat, c: Context)
    ensures Planned(plan, t, from, InspectBoot(plan, c))
  {
    hide InspectBoot, Entitled, Skippable, Markable;
    InspectBootEntitled(plan, c);
  }

  lemma StagedPlanned(plan: Plan, t: SlotTable, from: nat, c: Context)
    ensures Planned(plan, t, from, Staged(plan, c))
  {
    hide InspectBoot, RefusalFor, Skippable, Markable;
    JudgedPlanned(plan, t, from, c);
  }

  lemma UploadPlanned(plan: Plan, c: Context)
    requires c.current < |c.targets|
    requires !Skippable(plan, Table(c), c.targets[c.current].target) && !Markable(plan, Table(c),
                                                                                  c.targets[c.current].target)
    ensures Planned(plan, Table(c), c.current, PlanUpload(plan, c))
  {
    hide RefusalFor, Skippable, Markable;
  }

  lemma MarkPlanned(plan: Plan, c: Context, slot: nat)
    requires c.current < |c.targets| && Markable(plan, Table(c), c.targets[c.current].target)
    requires FileIn(Table(c), c.targets[c.current].target, slot)
    ensures Planned(plan, Table(c), c.current, PlanMark(plan, c, slot))
  {
    hide RefusalFor, Skippable, Markable, FileIn, Staged, Table;
    var entry := c.targets[c.current].report.(uploadSkipped := true);
    var checked := CheckPreconditions(plan, WithReport(c, c.current, entry));
    if checked.Ok? && WithoutSetState(c) {
      var noted := WithReport(c, c.current, entry.(uploadSlot := Some(slot)));
      var d := checked.value.(targets := noted.targets, swapScheduled := true);
      StagedPlanned(plan, Table(c), c.current, d.(current := d.current + 1, spent := d.spent.(markRetried := false)));
    }
  }

  lemma {:induction false} PlanFromPlanned(plan: Plan, c: Context)
    ensures Planned(plan, Table(c), c.current, PlanFrom(plan, c))
    decreases |c.targets| - c.current
  {
    hide Staged, ChooseBuild, PlanMark, PlanUpload, NeedOf, Skippable, Markable, FileIn;
    if c.current >= |c.targets| {
      StagedPlanned(plan, Table(c), c.current, c);
    } else {
      ChooseBuildFramed(c);
      if ChooseBuild(c).Ok? {
        var d := ChooseBuild(c).value;
        var image := d.targets[d.current];
        NeedByRows(plan, Table(d), image.target, image.report);
        var need := NeedOf(plan, Table(d), image.target, image.report);
        match need
        case Skip(entry, _) =>
          var e := SkipCurrent(d, need);
          PlanFromPlanned(plan, e);
          SkippedStays(plan, e, d.current);
        case Mark(slot) => MarkPlanned(plan, d, slot);
        case Upload => UploadPlanned(plan, d);
      } else {
        NothingPlanned(plan, c);
      }
    }
  }

  lemma NothingPlanned(plan: Plan, c: Context)
    requires c.current < |c.targets| && ChooseBuild(c).Err?
    ensures Planned(plan, Table(c), c.current, ChooseBuild(c).error)
  {
    hide ChosenBuild, Skippable, Markable;
  }

  /** What planning has passed it does not come back to. */
  lemma {:induction false} SkippedStays(plan: Plan, c: Context, k: nat)
    requires k < c.current && k < |c.targets|
    ensures var o := PlanFrom(plan, c);
            (o.next.Uploading? || o.next.MarkingForTest?) ==>
              k < |o.ctx.targets| && o.ctx.targets[k] == c.targets[k]
    decreases |c.targets| - c.current
  {
    hide Staged, ChooseBuild, PlanMark, PlanUpload, NeedOf;
    if c.current >= |c.targets| {
      StagedPlanned(plan, Table(c), |c.targets|, c);
      StagedElsewhere(plan, c);
    } else {
      ChooseBuildAt(c, k);
      if ChooseBuild(c).Ok? {
        var d := ChooseBuild(c).value;
        var need := NeedOf(plan, Table(d), d.targets[d.current].target, d.targets[d.current].report);
        match need
        case Skip(_, _) => SkippedStays(plan, SkipCurrent(d, need), k);
        case Mark(slot) => MarkAt(plan, d, slot, k);
        case Upload => UploadAt(plan, d, k);
      }
    }
  }

  lemma StagedElsewhere(plan: Plan, c: Context)
    ensures !Staged(plan, c).next.Uploading? && !Staged(plan, c).next.MarkingForTest?
  {
    hide InspectBoot, RefusalFor, Entitled;
    InspectBootEntitled(plan, c);
  }

  lemma ChooseBuildAt(c: Context, k: nat)
    requires k < c.current < |c.targets|
    ensures match ChooseBuild(c)
            case Ok(d) => d.current == c.current && |d.targets| == |c.targets| && d.targets[k] == c.targets[k]
            case Err(o) => o.next.Failed?
  {
    hide ChosenBuild;
  }

  lemma UploadAt(plan: Plan, c: Context, k: nat)
    requires k < c.current < |c.targets|
    ensures PlanUpload(plan, c).ctx.targets == c.targets
  {
    hide RefusalFor;
  }

  lemma MarkAt(plan: Plan, c: Context, slot: nat, k: nat)
    requires k < c.current < |c.targets|
    ensures var o := PlanMark(plan, c, slot);
            o.next.Uploading? || o.next.MarkingForTest? ==> k < |o.ctx.targets| && o.ctx.targets[k] == c.targets[k]
  {
    hide RefusalFor, Staged;
    var entry := c.targets[c.current].report.(uploadSkipped := true);
    var checked := CheckPreconditions(plan, WithReport(c, c.current, entry));
    if checked.Ok? && WithoutSetState(c) {
      var noted := WithReport(c, c.current, entry.(uploadSlot := Some(slot)));
      var d := checked.value.(targets := noted.targets, swapScheduled := true);
      StagedElsewhere(plan, d.(current := d.current + 1, spent := d.spent.(markRetried := false)));
    }
  }

  /** Every image is taken to have been there already. */
  predicate AllSkipped(before: seq<Image>, after: seq<Image>) {
    && |after| == |before|
    && forall k :: 0 <= k < |before| ==>
         after[k] == before[k].(report := before[k].report.(uploadSkipped := true))
  }

  /** At the outset an image of the client's runs its file unconfirmed: the reset has happened. */
  predicate FoundOnTrial(plan: Plan, t: SlotTable, c: Context) {
    && c.current == 0 && plan.mode != UploadOnly
    && exists k :: 0 <= k < |c.targets| && c.targets[k].target.commit == Client
                   && RunsFile(t, c.targets[k].target) && !KeepsFile(t, c.targets[k].target)
  }

  /** A planning step: after a reset of someone else's, the check after a boot; else the images in turn. */
  lemma PlanningRules(plan: Plan, r: Run)
    requires Disciplined(plan, r) && r.Then? && At(plan, r.before).state.Planning? && r.event.Proceed?
    ensures var c, o := At(plan, r.before).ctx, Latest(plan, r);
            && c.device.Some?
            && var t := c.device.value;
               if FoundOnTrial(plan, t, c) then
                 exists skipped :: AllSkipped(c.targets, skipped) && BootRuling(plan, t, c.(targets := skipped), o)
               else Planned(plan, t, c.current, o)
  {
    hide At, LastStep, Latest, PlanFromState, BootRuling, Planned, Transition, Good;
    var c := At(plan, r.before).ctx;
    LatestIs(plan, r);
    NeverBlind(plan, r.before);
    PlanFromStateRules(plan, c);
  }

  lemma PlanFromStateRules(plan: Plan, c: Context)
    ensures var o, t := PlanFromState(plan, c), Table(c);
            if FoundOnTrial(plan, t, c) then
              exists skipped :: AllSkipped(c.targets, skipped) && BootRuling(plan, t, c.(targets := skipped), o)
            else Planned(plan, t, c.current, o)
  {
    hide PlanFrom, InspectBoot, BootRuling, Planned, RunningOnTrial, RunsFile, KeepsFile, Table;
    var t := Table(c);
    forall k | 0 <= k < |c.targets|
      ensures RunningOnTrial(t, c.targets[k].target) <==>
              c.targets[k].target.commit == Client && RunsFile(t, c.targets[k].target)
              && !KeepsFile(t, c.targets[k].target)
    {
      Told(t, c.targets[k]);
    }
    if FoundOnTrial(plan, t, c) {
      BootRuled(plan, c.(targets := SkipAll(c.targets)));
      SameTable(c, c.(targets := SkipAll(c.targets)));
      assert AllSkipped(c.targets, SkipAll(c.targets));
    } else {
      PlanFromPlanned(plan, c);
    }
  }
}
