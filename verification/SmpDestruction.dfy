/**
  Which of the requests that callbacks issue while the destructor fails the table are still delivered,
  and which are lost.
 */
module SmpDestruction {
  import opened Common
  import opened SmpClient
  import opened SmpRuns

  /** `l` continues `k`. */
  predicate Continues(l: Life, k: Life) {
    l == k || (l.Lived? && Continues(l.before, k))
  }

  lemma {:induction false} ContinuesLawful(l: Life, k: Life)
    requires Lawful(l) && Continues(l, k)
    ensures Lawful(k)
  {
    if l == k {
    } else {
      ContinuesLawful(l.before, k);
    }
  }

  /** The destructor is failing the table, or draining what that deferred. */
  predicate Sweeping(s: System) {
    s.phase.Failing? || s.phase.Finishing?
  }

  /** A step that completes, cancels or fails no request of itself: no cancel, poll, rebind, delivery or disconnect. */
  predicate IsQuiet(call: Call) {
    !call.DoCancel? && !call.DoPoll? && !call.DoRebind? && !call.DoBytes? && !call.DoDisconnect?
  }

  /** Since the destructor began to fail the table, its callbacks have only issued requests and queued work. */
  predicate Quiet(l: Life)
    requires Lawful(l)
  {
    l.Lived? ==>
      Quiet(l.before) && (Sweeping(Now(l.before)) ==> IsQuiet(l.call))
  }

  // --- A request is lost exactly if it stays in the table -----------------------------------------

  /** Once the destructor is done, what has not been delivered is still in the table. */
  lemma LostIsPending(l: Life, id: nat)
    requires Lawful(l) && Now(l).phase.Dead? && id < Now(l).c.issued
    ensures Delivered(Now(l), id) == 1 - InTable(Now(l).c, id)
    ensures InTable(Now(l).c, id) <= 1
  {
    AlwaysStaged(l);
    ExactlyOnePlace(l, id);
    hide Now, Lawful, InTable, Delivered, SweptBehind;
  }

  /** The entry at place `k` of the table belongs to callback `id`. */
  predicate SitsAt(c: Client, k: nat, id: nat) {
    k < |c.pending| && c.pending[k].active && c.pending[k].callback == Some(id)
  }

  lemma SittingCounts(c: Client, k: nat, id: nat)
    requires SitsAt(c, k, id)
    ensures InTable(c, id) >= 1
  {
    assert Callbacks(c.pending)[k] == Some(id);
    assert Some(id) in Callbacks(c.pending);
  }

  predicate Absent(c: Client, id: nat) {
    id < c.issued && forall k :: 0 <= k < |c.pending| ==> c.pending[k].callback != Some(id)
  }

  lemma AbsentCounts(c: Client, id: nat)
    requires Absent(c, id)
    ensures InTable(c, id) == 0
  {
    assert forall k :: 0 <= k < |c.pending| ==> Callbacks(c.pending)[k] != Some(id);
    assert Some(id) !in Callbacks(c.pending);
  }

  // --- What a quiet sweep does to the table -------------------------------------------------------

  /** While the destructor's callbacks are quiet, nothing runs but its own loop and the callback it called. */
  predicate Shallow(s: System) {
    && |s.stack| <= 2 && (|s.stack| == 2 ==> s.stack[1].Callback?)
    && (s.stack != [] ==> if s.phase.Failing? then s.stack[0].FailAll? else s.stack[0].Drain?)
  }

  predicate QuietlySwept(s: System) {
    Sweeping(s) ==> Shallow(s)
  }

  lemma StepShallow(s: System, call: Call)
    requires Valid(s.c) && Possible(s, call) && QuietlySwept(s)
    requires Sweeping(s) ==> IsQuiet(call)
    ensures QuietlySwept(Step(s, call))
  {
    hide Valid, Request, Detach, AbandonedNumber, Expired, Resolve, Matches, CancelledNumber, Cancel;
  }

  lemma {:induction false} QuietShallow(l: Life)
    requires Lawful(l) && Quiet(l)
    ensures QuietlySwept(Now(l))
  {
    hide Step, QuietlySwept, Possible, Valid;
    match l
    case Born(config) => BornShallow(config);
    case Lived(before, call) =>
      QuietShallow(before);
      StepShallow(Now(before), call);
  }

  lemma BornShallow(config: Config)
    ensures QuietlySwept(Begin(config))
  {
  }

  /**
    From `s` to `t` the sweep has not gone back, what was pending outside the places it passed is still
    there, and no callback has come in but those of new requests.
   */
  predicate Moves(s: System, t: System) {
    && |t.c.pending| == |s.c.pending| && s.c.issued <= t.c.issued
    && Passed(s) <= Passed(t) <= |s.c.pending|
    && (forall k :: 0 <= k < |s.c.pending| && s.c.pending[k].active && !(Passed(s) <= k < Passed(t)) ==>
          t.c.pending[k] == s.c.pending[k])
    && OnlyLater(s.c.pending, t.c.pending, s.c.issued)
  }

  /** A request changes the table at one free place, if at all. */
  lemma RequestMovesTable(c: Client, spec: Spec, sends: bool)
    requires Valid(c)
    ensures var r := Request(c, spec, sends).0;
            && |r.pending| == |c.pending| && c.issued <= r.issued
            && forall k :: 0 <= k < |c.pending| && c.pending[k].active ==> r.pending[k] == c.pending[k]
  {
    hide Retire, AllocateFrom, PendingValid, RingValid;
    RingParts(c.config.maxRetired, c.retired);
  }

  lemma CallMoves(s: System, call: Call)
    requires Valid(s.c) && Possible(s, call) && Sweeping(s) && Shallow(s)
    requires call.DoRequest? || call.DoDefer? || call.Return?
    ensures Moves(s, Step(s, call))
  {
    hide Valid, Request, AbandonedNumber;
    if call.DoRequest? {
      RequestMovesTable(s.c, call.spec, call.sends);
      RequestLater(s.c, call.spec, call.sends, s.c.issued);
    }
  }

  /** One place further, and whoever was pending there is called. */
  lemma SweepMoves(s: System, index: nat)
    requires Valid(s.c) && s.phase.Failing? && s.stack == [FailAll(index)]
    ensures var t := FailStep(s, index);
            && Moves(s, t)
            && forall id :: index < |s.c.pending| && SitsAt(s.c, index, id) ==> id in t.delivered
  {
    hide RingValid, Retire, PendingValid;
    RingParts(s.c.config.maxRetired, s.c.retired);
  }

  lemma StageMoves(s: System)
    requires Sweeping(s) && s.stack == []
    ensures Moves(s, ShutdownStep(s))
  {
  }

  lemma DrainMoves(s: System, batch: seq<Work>)
    requires s.phase.Finishing? && s.stack == [Drain(batch)]
    ensures Moves(s, DrainStep(s, batch))
  {
  }

  lemma ProgressMoves(s: System)
    requires Valid(s.c) && Possible(s, Proceed) && Sweeping(s) && Shallow(s)
    ensures Moves(s, Progress(s))
  {
    hide Valid, FailStep, DrainStep, Moves;
    if s.stack == [] {
      StageMoves(s);
    } else if s.phase.Failing? {
      SweepMoves(s, s.stack[0].index);
    } else {
      DrainMoves(s, s.stack[0].batch);
    }
  }

  lemma QuietMoves(s: System, call: Call)
    requires Valid(s.c) && Possible(s, call) && Sweeping(s) && Shallow(s)
    requires IsQuiet(call)
    ensures Moves(s, Step(s, call))
  {
    hide Valid, Moves, Request, Progress, AbandonedNumber;
    if call.Proceed? {
      ProgressMoves(s);
    } else {
      CallMoves(s, call);
    }
  }

  // --- The fate of a request issued during the sweep ----------------------------------------------

  /** Callback `id` sits where the sweep has already been. */
  predicate Missed(s: System, k: nat, id: nat) {
    SitsAt(s.c, k, id) && k < Passed(s)
  }

  /** Callback `id` has been called, or sits where the sweep is still to come. */
  predicate Due(s: System, k: nat, id: nat) {
    id in s.delivered || (s.phase.Failing? && SitsAt(s.c, k, id) && Passed(s) <= k)
  }

  /** What becomes of a callback follows from where its request left it. */
  datatype Fate = Stuck(place: nat) | Awaited(place: nat) | Queued

  predicate Fated(s: System, fate: Fate, id: nat) {
    match fate
    case Stuck(k) => Missed(s, k, id)
    case Awaited(k) => Due(s, k, id)
    case Queued => Absent(s.c, id)
  }

  lemma DeliveredGrows(s: System, call: Call)
    requires Valid(s.c) && Possible(s, call)
    ensures s.delivered <= Step(s, call).delivered
  {
    hide Valid, Request, Detach, AbandonedNumber, Expired, Resolve, Matches, CancelledNumber, Cancel;
  }

  /** The sweep passes a place only by calling whoever is pending there. */
  lemma PassingCalls(s: System, call: Call, k: nat, id: nat)
    requires Valid(s.c) && Possible(s, call) && s.phase.Failing? && Shallow(s)
    requires IsQuiet(call)
    requires SitsAt(s.c, k, id) && Passed(s) <= k
    ensures Due(Step(s, call), k, id)
  {
    hide Valid, Request, AbandonedNumber;
    assert s.stack != [] && s.stack[0].FailAll?;
    if call.Proceed? {
      SweepMoves(s, s.stack[0].index);
    } else {
      CallMoves(s, call);
    }
  }

  lemma FateStays(s: System, call: Call, fate: Fate, id: nat)
    requires Valid(s.c) && Possible(s, call) && Sweeping(s) && Shallow(s) && Fated(s, fate, id)
    requires IsQuiet(call)
    ensures Fated(Step(s, call), fate, id)
  {
    hide Valid, Step, Possible, Passed, Shallow;
    match fate
    case Stuck(k) => QuietMoves(s, call);
    case Queued => QuietMoves(s, call);
    case Awaited(k) =>
      DeliveredGrows(s, call);
      if id !in s.delivered {
        PassingCalls(s, call, k, id);
      }
  }

  lemma {:induction false} FateHolds(l: Life, k: Life, fate: Fate, id: nat)
    requires Lawful(l) && Continues(l, k) && Quiet(l)
    requires Lawful(k) && Sweeping(Now(k)) && Fated(Now(k), fate, id)
    ensures Fated(Now(l), fate, id) && !Now(l).phase.Alive? && !Now(l).phase.Draining?
  {
    hide Valid, Step, Possible, Fated, Shallow;
    if l == k {
    } else {
      FateHolds(l.before, k, fate, id);
      QuietShallow(l.before);
      AlwaysStaged(l.before);
      StaysSweeping(Now(l.before), l.call);
      FateStays(Now(l.before), l.call, fate, id);
    }
  }

  lemma StaysSweeping(s: System, call: Call)
    requires Valid(s.c) && Possible(s, call) && !s.phase.Alive? && !s.phase.Draining?
    requires s.phase.Dead? ==> s.stack == []
    ensures Sweeping(s) && !Step(s, call).phase.Alive? && !Step(s, call).phase.Draining?
  {
    hide Valid, Request, Detach, AbandonedNumber, Expired, Resolve, Matches, CancelledNumber, Cancel;
  }

  /** Where a request leaves its callback: in the queue, behind the sweep, or ahead of it. */
  function FateOf(s: System, spec: Spec, sends: bool): Fate
    requires Valid(s.c)
  {
    var handle := Request(s.c, spec, sends).1;
    if handle == NO_HANDLE then Queued
    else if handle.slot < Passed(s) then Stuck(handle.slot)
    else Awaited(handle.slot)
  }

  lemma RequestFated(s: System, spec: Spec, sends: bool)
    requires Valid(s.c) && Possible(s, DoRequest(spec, sends)) && Sweeping(s) && Shallow(s) && spec.wanted
    requires forall k :: 0 <= k < |s.c.pending| ==> s.c.pending[k].callback != Some(s.c.issued)
    ensures var t := Step(s, DoRequest(spec, sends));
            Fated(t, FateOf(s, spec, sends), s.c.issued) && Sweeping(t) && t.c.issued == s.c.issued + 1
  {
    hide Retire, AllocateFrom, PendingValid, RingValid, AbandonedNumber;
    RingParts(s.c.config.maxRetired, s.c.retired);
  }

  lemma NotYetIssued(l: Life)
    requires Lawful(l)
    ensures var c := Now(l).c; forall k :: 0 <= k < |c.pending| ==> c.pending[k].callback != Some(c.issued)
  {
    var c := Now(l).c;
    ExactlyOnePlace(l, c.issued);
    hide Now, Lawful;
    Uncounted(c, c.issued);
  }

  lemma Uncounted(c: Client, id: nat)
    requires InTable(c, id) == 0
    ensures forall k :: 0 <= k < |c.pending| ==> c.pending[k].callback != Some(id)
  {
    assert Some(id) !in Callbacks(c.pending);
    assert forall k :: 0 <= k < |c.pending| ==> Callbacks(c.pending)[k] == c.pending[k].callback;
  }

  /** Once the destructor is done, a callback was called unless it sits behind the sweep. */
  lemma FateDecides(s: System, fate: Fate, id: nat)
    requires s.phase.Dead? && Fated(s, fate, id)
    requires Delivered(s, id) == 1 - InTable(s.c, id)
    ensures Delivered(s, id) == if fate.Stuck? then 0 else 1
  {
    hide InTable;
    match fate
    case Stuck(p) => SittingCounts(s.c, p, id);
    case Queued => AbsentCounts(s.c, id);
    case Awaited(p) =>
  }

  /**
    A request that a callback issues while the destructor fails the table, or drains what that
    deferred, is delivered exactly if it was refused a handle or got a place of the table the sweep
    had yet to pass -- as long as the destructor's callbacks only issue requests and queue work.
   */
  lemma LateRequestDelivered(l: Life, k: Life, spec: Spec, sends: bool)
    requires Lawful(l) && Quiet(l) && Now(l).phase.Dead?
    requires Continues(l, Lived(k, DoRequest(spec, sends))) && spec.wanted
    requires Lawful(k) && Valid(Now(k).c) && Sweeping(Now(k))
    ensures var s := Now(k);
            var handle := Request(s.c, spec, sends).1;
            Delivered(Now(l), s.c.issued) == if handle == NO_HANDLE || handle.slot >= Passed(s) then 1 else 0
  {
    hide Step, Request, InTable, Passed, Fated, Quiet, Delivered, Shallow;
    var issue := DoRequest(spec, sends);
    var id := Now(k).c.issued;
    var fate := FateOf(Now(k), spec, sends);
    ContinuesLawful(l, Lived(k, issue));
    QuietBefore(l, Lived(k, issue));
    QuietShallow(k);
    NotYetIssued(k);
    RequestFated(Now(k), spec, sends);
    FateHolds(l, Lived(k, issue), fate, id);
    IssuedGrows(l, Lived(k, issue));
    LostIsPending(l, id);
    FateDecides(Now(l), fate, id);
  }

  lemma {:induction false} QuietBefore(l: Life, k: Life)
    requires Lawful(l) && Continues(l, k) && Quiet(l)
    ensures Lawful(k) && Quiet(k)
  {
    if l == k {
    } else {
      QuietBefore(l.before, k);
    }
  }

  lemma IssuedStep(s: System, call: Call)
    requires Valid(s.c) && Possible(s, call)
    ensures s.c.issued <= Step(s, call).c.issued
  {
    hide Valid, Retire, AbandonedNumber, Expired, Resolve, Matches, CancelledNumber, AllocateFrom, FreeSlotFrom;
  }

  lemma {:induction false} IssuedGrows(l: Life, k: Life)
    requires Lawful(l) && Continues(l, k) && Lawful(k)
    ensures Now(k).c.issued <= Now(l).c.issued
  {
    hide Valid, Step, Possible;
    if l == k {
    } else {
      IssuedGrows(l.before, k);
      IssuedStep(Now(l.before), l.call);
    }
  }
}
