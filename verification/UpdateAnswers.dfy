/**
  What the answers of the device, the link and the application lead to, other than slot tables: failures,
  acceptances, drops and approvals, and what an update keeps of them.
 */
module UpdateAnswers {
  import opened Common
  import opened UpdateTypes
  import opened UpdateMachine
  import opened UpdateInvariant
  import opened UpdateRuns
  import opened UpdateVerdicts

  // --- Failures ------------------------------------------------------------------------------------

  /** The update has failed with the error it was given. */
  predicate FailsWith(o: Outcome, error: Error, reverts: bool) {
    o.next == Failed && o.effect == Finish && o.ctx.verdict.cause == Some(error)
    && o.ctx.verdict.revertPending == reverts
  }

  predicate Goes(o: Outcome, next: UpdateState, effect: Effect) {
    o.next == next && o.effect == effect
  }

  /** The device answered with this number, outside of any group. */
  predicate FlatError(error: Error, rc: nat) {
    error.mgmt.Some? && !error.mgmt.value.groupScoped && error.mgmt.value.rc == rc
  }

  /** The image group answered with this number. */
  predicate ImageGroupError(error: Error, rc: nat) {
    error.mgmt.Some? && error.mgmt.value.groupScoped && error.mgmt.value.group == 1 && error.mgmt.value.rc == rc
  }

  predicate Dropped(error: Error) {
    error.code == Disconnection
  }

  predicate TimedOut(error: Error) {
    error.code == Timeout
  }

  /**
    What a failure leads to in each state. A bootloader that cannot answer is planned for; a refused mark is
    looked into once if an earlier one may have gone through (28 of the image group: already pending; 6: bad
    state); a busy device (10) is reset by force, once, and a reset that may have worked is taken to have;
    a wait survives drops and timeouts; a confirm survives drops, and one timeout. Anything else ends the update.
   */
  predicate FailureRuling(state: UpdateState, error: Error, c: Context, o: Outcome) {
    match state
    case QueryingBootloader =>
      if error.code == ProtocolError || error.code == CborDecode then Goes(o, InspectingImages, ReadState)
      else FailsWith(o, error, c.swapScheduled)
    case MarkingForTest =>
      if (ImageGroupError(error, 28) || FlatError(error, 6)) && !c.spent.markRetried then
        Goes(o, InspectingImages, ReadState)
      else FailsWith(o, error, c.swapScheduled)
    case Resetting =>
      if FlatError(error, 10) && !c.spent.resetForced then Goes(o, Resetting, ForceReset)
      else if Dropped(error) || TimedOut(error) then Goes(o, AwaitingDisconnect, AwaitDisconnect)
      else FailsWith(o, error, c.swapScheduled)
    case AwaitingDeviceApply => WaitRuling(state, error, c, o)
    case AwaitingDeviceCommit => WaitRuling(state, error, c, o)
    case Confirming => LostConfirmRuling(error, c, o)
    case VerifyingConfirmed => LostConfirmRuling(error, c, o)
    case InspectingImages => FailsWith(o, error, c.swapScheduled)
    case Uploading => FailsWith(o, error, c.swapScheduled)
    case VerifyingUpload => FailsWith(o, error, c.swapScheduled)
    case VerifyingBooted => FailsWith(o, error, c.swapScheduled)
    case _ => true
  }

  predicate WaitRuling(state: UpdateState, error: Error, c: Context, o: Outcome) {
    if Dropped(error) then Goes(o, AwaitingReconnect, RequestReconnect)
    else if TimedOut(error) then Goes(o, state, AwaitApply)
    else FailsWith(o, error, c.swapScheduled)
  }

  /** The confirm may have gone through or not: until that is known, the swap counts as scheduled. */
  predicate LostConfirmRuling(error: Error, c: Context, o: Outcome) {
    if Dropped(error) then Goes(o, AwaitingReconnect, RequestReconnect) && o.ctx.swapScheduled
    else if TimedOut(error) && !c.spent.confirmReread then
      Goes(o, VerifyingBooted, ReadState) && o.ctx.swapScheduled && o.ctx.spent.confirmReread
    else FailsWith(o, error, true)
  }

  lemma FailureRules(plan: Plan, r: Run, error: Error)
    requires Disciplined(plan, r) && r.Then? && r.event == Failure(error)
    ensures FailureRuling(At(plan, r.before).state, error, At(plan, r.before).ctx, Latest(plan, r))
  {
    hide At, LastStep, Disciplined, Latest, RecordMode;
    var b := At(plan, r.before);
    if !IsTerminal(b.state) {
      LatestIs(plan, r);
    }
  }

  // --- Other answers -------------------------------------------------------------------------------

  /** What an answer that brings neither a table nor an error leads to. */
  predicate AnswerRuling(plan: Plan, state: UpdateState, event: Event, c: Context, o: Outcome) {
    match event
    case Start => state == Idle ==> Goes(o, QueryingParameters, QueryParameters)
    case ParametersRead(_) => state == QueryingParameters ==> Goes(o, QueryingBootloader, QueryBootloader)
    case ParametersUnavailable => state == QueryingParameters ==> Goes(o, QueryingBootloader, QueryBootloader)
    case BootloaderRead(_, _) => state == QueryingBootloader ==> Goes(o, InspectingImages, ReadState)
    case UploadFinished(transferred, present) =>
      state == Uploading && plan.mode != UploadOnly ==>
        && Goes(o, VerifyingUpload, ReadState) && !o.ctx.uploadInProgress
        && c.current < |c.targets| == |o.ctx.targets|
        && o.ctx.targets[c.current].report.uploadSkipped == (c.targets[c.current].report.uploadSkipped || present)
    case UploadSuspended => state == Uploading ==> Goes(o, AwaitingReconnect, RequestReconnect)
    case ResetAccepted => state == Resetting ==> Goes(o, AwaitingDisconnect, AwaitDisconnect)
    case Disconnected => state == AwaitingDisconnect ==> Goes(o, AwaitingReconnect, RequestReconnect)
    case Reconnected =>
      state == AwaitingReconnect ==>
        if c.uploadInProgress then Goes(o, Uploading, ResumeUpload) else Goes(o, VerifyingBooted, ReadState)
    case ReconnectFailed(error) => state == AwaitingReconnect ==> FailsWith(o, error, c.swapScheduled)
    case ConfirmApproved => state == AwaitingConfirmation ==> Goes(o, Confirming, Confirm)
    case Cancel => o.next == Cancelled && o.effect == Finish && o.ctx.verdict.revertPending == c.swapScheduled
    case _ => true
  }

  lemma AnswerRules(plan: Plan, r: Run)
    requires Disciplined(plan, r) && r.Then? && !IsTerminal(At(plan, r.before).state)
    ensures AnswerRuling(plan, At(plan, r.before).state, r.event, At(plan, r.before).ctx, Latest(plan, r))
  {
    hide At, LastStep, Disciplined, Latest, RecordMode, PlanFromState, NextTarget, UploadVerified, DecideBooted,
         TotalTransferred;
    var b := At(plan, r.before);
    LatestIs(plan, r);
    if r.event.ConfirmApproved? && b.state.AwaitingConfirmation? {
      ApprovalGoes(plan, b.state, b.ctx);
    }
  }

  lemma ApprovalGoes(plan: Plan, state: UpdateState, c: Context)
    requires Decidable(state, ConfirmApproved, c) && state == AwaitingConfirmation
    ensures Goes(DecideBooted(plan, state, ConfirmApproved, c), Confirming, Confirm)
    ensures DecideBooted(plan, state, ConfirmApproved, c).ctx.spent.confirmApproved
  {
  }

  /** The confirm of one image is followed by that of the next on trial, and the last by a look at the table. */
  predicate ConfirmedRuling(c: Context, o: Outcome) {
    if exists k :: c.current < k < |c.targets| && c.targets[k].inTrial then
      && Goes(o, Confirming, Confirm)
      && c.current < o.ctx.current < |c.targets| && c.targets[o.ctx.current].inTrial
      && forall k :: c.current < k < o.ctx.current ==> !c.targets[k].inTrial
    else Goes(o, VerifyingConfirmed, ReadState) && !o.ctx.swapScheduled
  }

  lemma ConfirmedRuled(c: Context)
    requires c.current < |c.targets|
    ensures ConfirmedRuling(c, AfterConfirm(c))
  {
    var done := c.targets[c.current := c.targets[c.current].(inTrial := false)];
    var next := NextInTrial(done, c.current);
    assert forall k :: 0 <= k < |c.targets| && k != c.current ==> done[k] == c.targets[k];
    assert next != c.current;
    hide NextInTrial;
    if next < |done| {
      assert c.current < next && c.targets[next].inTrial;
    } else {
      assert forall k :: c.current < k < |c.targets| ==> done[k] == c.targets[k] && !done[k].inTrial;
    }
  }

  lemma ConfirmsInOrder(plan: Plan, r: Run)
    requires Disciplined(plan, r) && r.Then? && At(plan, r.before).state == Confirming && r.event.Confirmed?
    ensures ConfirmedRuling(At(plan, r.before).ctx, Latest(plan, r))
  {
    hide At, LastStep, Disciplined, Latest, AfterConfirm, ConfirmedRuling;
    LatestIs(plan, r);
    var c := At(plan, r.before).ctx.(device := r.event.table);
    ConfirmedRuled(c);
    ConfirmedAlike(c, At(plan, r.before).ctx, Latest(plan, r));
  }

  lemma ConfirmedAlike(c: Context, d: Context, o: Outcome)
    requires ConfirmedRuling(c, o) && d.targets == c.targets && d.current == c.current
    ensures ConfirmedRuling(d, o)
  {
  }

  /** A mark that is answered leads to the next image, and behind the last one to the reset. */
  lemma MarkRules(plan: Plan, r: Run)
    requires Disciplined(plan, r) && r.Then? && At(plan, r.before).state == MarkingForTest && r.event.MarkedForTest?
    ensures var c, o := At(plan, r.before).ctx, Latest(plan, r);
            && o.ctx.swapScheduled && !o.ctx.spent.markRetried && o.ctx.device == r.event.table
            && o.ctx.current == c.current + 1
            && if c.current + 1 < |c.targets| then Goes(o, Planning, Continue) else Goes(o, Resetting, Reset)
  {
    hide At, LastStep, Latest, Summarised, TimersFit, DecideQuery, DecideBooted, InspectBoot, RefusalFor;
    LatestIs(plan, r);
    RunGood(plan, r.before);
  }
}
