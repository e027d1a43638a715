/**
  What each step of the client's own loops does to the table, the queue and the callbacks, and what a
  whole poll, disconnect or broken stream has done by the time it is over, whatever the callbacks it
  called did in between.
 */
module SmpDelivery {
  import opened Common
  import opened SmpClient
  import opened SmpRuns

  // --- One step ------------------------------------------------------------------------------------

  /** The callback of a request runs, if it has one. */
  function Ran(callback: Option<nat>): seq<nat> {
    if callback.None? then [] else [callback.value]
  }

  function Running(callback: Option<nat>): seq<Frame> {
    if callback.None? then [] else [Callback]
  }

  /** From `s` to `t` the request at place `i`, and no other, is completed: taken out, retired and called. */
  predicate Completes(s: System, t: System, i: nat) {
    && i < |s.c.pending| == |t.c.pending| && s.c.pending[i].active
    && !t.c.pending[i].active && t.c.pending[i].callback.None?
    && (forall k :: 0 <= k < |s.c.pending| && k != i ==> t.c.pending[k] == s.c.pending[k])
    && t.log == s.log + [s.c.pending[i].number] && t.delivered == s.delivered + Ran(s.c.pending[i].callback)
    && t.c.deferred == s.c.deferred && t.c.connected == s.c.connected && t.c.issued == s.c.issued
  }

  /** From `s` to `t` no request is touched. */
  predicate Idle(s: System, t: System) {
    t.c == s.c && t.delivered == s.delivered && t.log == s.log
  }

  lemma CompleteDoes(s: System, t: System, i: nat)
    requires Valid(s.c) && s.c == t.c && s.delivered == t.delivered && s.log == t.log
    requires i < |s.c.pending| && s.c.pending[i].active
    ensures Completes(s, Complete(t, i), i) && Complete(t, i).stack == t.stack + Running(s.c.pending[i].callback)
  {
    hide Valid, Retire;
  }

  /** The life whose next step is the client's own, with `frame` on top. */
  predicate At(l: Life, frame: Frame) {
    && Lawful(Lived(l, Proceed)) && Now(l).stack != [] && Top(Now(l)) == frame
  }

  /**
    A response completes the request it answers: with an active entry that has the message's number and
    carries its group, command and operation, that entry's request is completed and its callback called.
   */
  lemma ResponseCompletes(l: Life, messages: seq<Message>, broken: bool, i: nat)
    requires At(l, Feed(messages, broken)) && messages != [] && i < |Now(l).c.pending|
    requires var entry := Now(l).c.pending[i];
             entry.active && entry.number == messages[0].number && entry.key == messages[0].key
    ensures var s, t := Now(l), Now(Lived(l, Proceed));
            && Completes(s, t, i)
            && t.stack == Rest(s) + [Feed(messages[1..], broken)] + Running(s.c.pending[i].callback)
  {
    hide Valid, Now, Completes, FeedStep;
    Unfolds(l);
    MatchCompletes(Now(l), messages, broken, i);
  }

  lemma MatchCompletes(s: System, messages: seq<Message>, broken: bool, i: nat)
    requires Valid(s.c) && s.stack != [] && messages != [] && i < |s.c.pending| && s.c.pending[i].active
    requires s.c.pending[i].number == messages[0].number && s.c.pending[i].key == messages[0].key
    ensures var t := FeedStep(s, messages, broken);
            && Completes(s, t, i)
            && t.stack == Rest(s) + [Feed(messages[1..], broken)] + Running(s.c.pending[i].callback)
  {
    FoundThere(s.c, i);
    hide Valid, Complete, Completes, Matches;
    CompleteDoes(s, s.(stack := Rest(s) + [Feed(messages[1..], broken)]), i);
  }

  lemma Unfolds(l: Life)
    requires Lawful(Lived(l, Proceed)) && Now(l).stack != []
    ensures Now(Lived(l, Proceed)) == Progress(Now(l))
  {
    hide Valid, Progress;
  }

  /** Numbers are distinct, so the search by number finds the entry itself. */
  lemma FoundThere(c: Client, i: nat)
    requires Valid(c) && i < |c.pending| && c.pending[i].active
    ensures Matches(c, c.pending[i].number, c.pending[i].key) == Some(i)
  {
    hide RingValid;
  }

  /** A message that no active entry answers to in full changes nothing. */
  lemma UnmatchedIgnored(l: Life, messages: seq<Message>, broken: bool)
    requires At(l, Feed(messages, broken)) && messages != []
    requires forall i :: 0 <= i < |Now(l).c.pending| && Now(l).c.pending[i].active ==>
               Now(l).c.pending[i].number != messages[0].number || Now(l).c.pending[i].key != messages[0].key
    ensures var s, t := Now(l), Now(Lived(l, Proceed));
            Idle(s, t) && t.stack == Rest(s) + [Feed(messages[1..], broken)]
  {
    hide Valid, Now, FindBySeq;
    assert Matches(Now(l).c, messages[0].number, messages[0].key).None?;
    Unfolds(l);
  }

  /** A message under one of the last numbers retired changes nothing, whatever else it carries. */
  lemma LateResponseIgnored(l: Life, messages: seq<Message>, broken: bool)
    requires At(l, Feed(messages, broken)) && messages != []
    requires messages[0].number in LastOf(Now(l).log, Now(l).c.config.maxRetired)
    ensures var s, t := Now(l), Now(Lived(l, Proceed));
            Idle(s, t) && t.stack == Rest(s) + [Feed(messages[1..], broken)]
  {
    hide Valid, LastOf, Matches, Now;
    var c := Now(l).c;
    forall i | 0 <= i < |c.pending| && c.pending[i].active
      ensures c.pending[i].number != messages[0].number || c.pending[i].key != messages[0].key
    {
      LateResponseCompletesNothing(l, messages[0].number, messages[0].key);
      FoundThere(c, i);
    }
    UnmatchedIgnored(l, messages, broken);
  }

  /** Behind its last message a delivery is over, unless the stream broke: then everything pending is failed. */
  lemma DeliveryEnds(l: Life, broken: bool)
    requires At(l, Feed([], broken))
    ensures var s, t := Now(l), Now(Lived(l, Proceed));
            Idle(s, t) && t.stack == Rest(s) + if broken then [FailAll(0)] else []
  {
    hide Valid, Now;
    Unfolds(l);
  }

  /** The next of the expired requests is completed, unless its place has been given away or freed since. */
  lemma ExpiryCompletes(l: Life, handles: seq<Handle>)
    requires At(l, Expire(handles)) && handles != []
    ensures var s, t, h := Now(l), Now(Lived(l, Proceed)), handles[0];
            if Holds(s.c, h) then
              && Completes(s, t, h.slot)
              && t.stack == Rest(s) + [Expire(handles[1..])] + Running(s.c.pending[h.slot].callback)
            else Idle(s, t) && t.stack == Rest(s) + [Expire(handles[1..])]
  {
    var s, h := Now(l), handles[0];
    AlwaysNumbered(l);
    hide Valid, Complete, Now, Completes;
    Unfolds(l);
    if Holds(s.c, h) {
      CompleteDoes(s, s.(stack := Rest(s) + [Expire(handles[1..])]), h.slot);
    }
  }

  /** Failing everything goes through the table place by place. */
  lemma FailureCompletes(l: Life, index: nat)
    requires At(l, FailAll(index))
    ensures var s, t := Now(l), Now(Lived(l, Proceed));
            if index >= |s.c.pending| then Idle(s, t) && t.stack == Rest(s)
            else if s.c.pending[index].active then
              && Completes(s, t, index)
              && t.stack == Rest(s) + [FailAll(index + 1)] + Running(s.c.pending[index].callback)
            else Idle(s, t) && t.stack == Rest(s) + [FailAll(index + 1)]
  {
    hide Valid, Now, Completes, FailStep;
    Unfolds(l);
    PlaceFails(Now(l), index);
  }

  lemma PlaceFails(s: System, index: nat)
    requires Valid(s.c) && s.stack != []
    ensures var t := FailStep(s, index);
            if index >= |s.c.pending| then Idle(s, t) && t.stack == Rest(s)
            else if s.c.pending[index].active then
              && Completes(s, t, index)
              && t.stack == Rest(s) + [FailAll(index + 1)] + Running(s.c.pending[index].callback)
            else Idle(s, t) && t.stack == Rest(s) + [FailAll(index + 1)]
  {
    hide Valid, Complete, Completes;
    if index < |s.c.pending| && s.c.pending[index].active {
      CompleteDoes(s, s.(stack := Rest(s) + [FailAll(index + 1)]), index);
    }
  }

  /** Deferred work is called in the order it was queued, and what it queues comes in the next batch. */
  lemma DrainingCalls(l: Life, batch: seq<Work>)
    requires At(l, Drain(batch))
    ensures var s, t := Now(l), Now(Lived(l, Proceed));
            && t.c.pending == s.c.pending && t.log == s.log && t.c.connected == s.c.connected
            && (if batch != [] then
                  && t.c.deferred == s.c.deferred && t.stack == Rest(s) + [Drain(batch[1..]), Callback]
                  && t.delivered == s.delivered + (if batch[0].Completion? then [batch[0].id] else [])
                else
                  && t.c.deferred == [] && t.delivered == s.delivered
                  && t.stack == Rest(s) + if s.c.deferred == [] then [] else [Drain(s.c.deferred)])
  {
    hide Valid, Now;
    Unfolds(l);
  }

  // --- Requests and cancellations ------------------------------------------------------------------

  /** A number under which nothing is pending and that is not among the last ones retired. */
  predicate FreeNumber(s: System, n: nat) {
    && n < SEQ_SPACE && n !in LastOf(s.log, s.c.config.maxRetired)
    && forall k :: 0 <= k < |s.c.pending| && s.c.pending[k].active ==> s.c.pending[k].number != n
  }

  /** A request there is a link, room, a place and a number for. */
  predicate Sendable(s: System, spec: Spec) {
    && s.c.connected && spec.size <= s.c.config.maxPayload
    && (exists k :: 0 <= k < |s.c.pending| && !s.c.pending[k].active)
    && (exists n :: 0 <= n < SEQ_SPACE && FreeNumber(s, n))
  }

  /** The number in its turn, counted from the one behind the last that was taken. */
  function Turn(s: System, k: nat): nat {
    (s.c.nextSeq + k) % 256
  }

  /** `n` is the first free number in turn, and the next turn begins behind it. */
  predicate InTurn(s: System, t: System, n: nat) {
    && t.c.nextSeq == (n + 1) % 256
    && exists k :: 0 <= k < 256 && Turn(s, k) == n && FreeNumber(s, n) && NoneFreeBefore(s, k)
  }

  predicate NoneFreeBefore(s: System, k: nat) {
    forall j :: 0 <= j < k ==> !FreeNumber(s, Turn(s, j))
  }

  /** The flags are the ring, and the ring is the end of the log. */
  lemma UsableIsFree(s: System, n: nat)
    requires Valid(s.c) && Remembers(s) && n < SEQ_SPACE
    ensures Usable(s.c.pending, s.c.retired, n) <==> FreeNumber(s, n)
  {
    hide LastOf;
    RingParts(s.c.config.maxRetired, s.c.retired);
    assert n in Ordered(s.c.retired) <==> n in s.c.retired.ring;
  }

  lemma SendableExactly(s: System, spec: Spec)
    requires Valid(s.c) && Remembers(s)
    ensures Sendable(s, spec) <==> !Unsendable(s.c, spec)
  {
    hide Usable, FreeNumber, Remembers, RingValid, PendingValid;
    RingParts(s.c.config.maxRetired, s.c.retired);
    var n := AllocateFrom(s.c.pending, s.c.retired, s.c.nextSeq, 0);
    if n.Some? {
      UsableIsFree(s, n.value);
    }
    forall m | 0 <= m < SEQ_SPACE && FreeNumber(s, m)
      ensures n.Some?
    {
      UsableIsFree(s, m);
      EveryNumberTried(s.c.nextSeq, m);
    }
  }

  /** From `s` to `t` the request enters under handle `h`: a free place, the number in turn and a new generation. */
  predicate Enters(s: System, t: System, spec: Spec, h: Handle) {
    && h.slot < |s.c.pending| && !s.c.pending[h.slot].active && h.generation == s.c.nextGeneration
    && Holds(t.c, h) && InTurn(s, t, t.c.pending[h.slot].number)
    && t.c.pending == s.c.pending[h.slot := Entry(true, h.generation, t.c.pending[h.slot].number, spec.answer,
                                                  spec.deadline, CallbackOf(s.c, spec))]
    && t.log == s.log && t.c.deferred == s.c.deferred && t.c.nextGeneration == s.c.nextGeneration + 1
  }

  /** From `s` to `t` the request is refused: nothing enters, and the callback, if there is one, is queued. */
  predicate Refused(s: System, t: System, spec: Spec, h: Handle) {
    && h == NO_HANDLE && t.c.pending == s.c.pending
    && t.c.deferred == s.c.deferred + (if spec.wanted then [Completion(s.c.issued)] else [])
    && (if Sendable(s, spec) then UsesUp(s, t) else t.log == s.log && t.c.nextSeq == s.c.nextSeq)
  }

  /** The number in turn has been retired at once. */
  predicate UsesUp(s: System, t: System) {
    |t.log| == |s.log| + 1 && t.log[..|s.log|] == s.log && InTurn(s, t, t.log[|s.log|])
  }

  /**
    A request that can be sent and is enters the table; any other is refused, and a number is used up
    then exactly if the transport was asked.
   */
  lemma RequestOutcome(l: Life, spec: Spec, sends: bool)
    requires Lawful(Lived(l, DoRequest(spec, sends)))
    ensures var s, t, h := Now(l), Now(Lived(l, DoRequest(spec, sends))), Request(Now(l).c, spec, sends).1;
            && t.delivered == s.delivered && t.stack == s.stack
            && t.c.issued == s.c.issued + (if spec.wanted then 1 else 0)
            && (if Sendable(s, spec) && sends then Enters(s, t, spec, h) else Refused(s, t, spec, h))
  {
    AlwaysRemembers(l);
    hide Now, Remembers, Enters, Refused, Sendable;
    RequestDoes(Now(l), spec, sends);
    RequestUnfolds(l, spec, sends);
  }

  lemma RequestUnfolds(l: Life, spec: Spec, sends: bool)
    requires Lawful(Lived(l, DoRequest(spec, sends)))
    ensures Now(Lived(l, DoRequest(spec, sends))) == Step(Now(l), DoRequest(spec, sends))
  {
    hide Valid, Step;
  }

  lemma RequestDoes(s: System, spec: Spec, sends: bool)
    requires Valid(s.c) && Remembers(s) && Possible(s, DoRequest(spec, sends))
    ensures var t, h := Step(s, DoRequest(spec, sends)), Request(s.c, spec, sends).1;
            && t.delivered == s.delivered && t.stack == s.stack
            && t.c.issued == s.c.issued + (if spec.wanted then 1 else 0)
            && (if Sendable(s, spec) && sends then Enters(s, t, spec, h) else Refused(s, t, spec, h))
  {
    hide Usable, FreeNumber, Remembers, RingValid, PendingValid, Retire, Sendable, InTurn, AllocateFrom;
    RingParts(s.c.config.maxRetired, s.c.retired);
    SendableExactly(s, spec);
    if AllocateFrom(s.c.pending, s.c.retired, s.c.nextSeq, 0).Some? {
      TakenInTurn(s, Step(s, DoRequest(spec, sends)));
    }
  }

  /** The search for a number takes the first usable one. */
  lemma {:induction false} FirstUsable(pending: seq<Entry>, r: Retired, next: nat, attempt: nat) returns (k: nat)
    requires |r.flags| == SEQ_SPACE && attempt <= SEQ_SPACE && AllocateFrom(pending, r, next, attempt).Some?
    ensures attempt <= k < SEQ_SPACE && AllocateFrom(pending, r, next, attempt) == Some(Candidate(next, k))
    ensures forall j :: attempt <= j < k ==> !Usable(pending, r, Candidate(next, j))
    decreases SEQ_SPACE - attempt
  {
    hide Usable;
    if Usable(pending, r, Candidate(next, attempt)) {
      k := attempt;
    } else {
      k := FirstUsable(pending, r, next, attempt + 1);
    }
  }

  lemma TakenInTurn(s: System, t: System)
    requires Valid(s.c) && Remembers(s) && AllocateFrom(s.c.pending, s.c.retired, s.c.nextSeq, 0).Some?
    ensures var n := AllocateFrom(s.c.pending, s.c.retired, s.c.nextSeq, 0).value;
            t.c.nextSeq == (n + 1) % 256 ==> InTurn(s, t, n)
  {
    hide Usable, FreeNumber, Remembers, RingValid, PendingValid;
    RingParts(s.c.config.maxRetired, s.c.retired);
    var k := FirstUsable(s.c.pending, s.c.retired, s.c.nextSeq, 0);
    var n := AllocateFrom(s.c.pending, s.c.retired, s.c.nextSeq, 0).value;
    assert Turn(s, k) == n;
    UsableIsFree(s, n);
    forall j | 0 <= j < k
      ensures !FreeNumber(s, Turn(s, j))
    {
      UsableIsFree(s, Candidate(s.c.nextSeq, j));
    }
    assert NoneFreeBefore(s, k);
  }

  /** From `s` to `t` the request under handle `h` is taken out and its callback, if there is one, queued. */
  predicate Withdrawn(s: System, t: System, h: Handle) {
    && Holds(s.c, h) && t.delivered == s.delivered && t.stack == s.stack
    && t.log == s.log + [s.c.pending[h.slot].number]
    && t.c.pending == s.c.pending[h.slot := s.c.pending[h.slot].(active := false, callback := None)]
    && t.c.deferred == s.c.deferred + match s.c.pending[h.slot].callback
                                      case None => []
                                      case Some(id) => [Completion(id)]
  }

  /** Cancelling withdraws a request; a handle that stands for nothing does nothing. */
  lemma CancelOutcome(l: Life, h: Handle)
    requires Lawful(Lived(l, DoCancel(h)))
    ensures var s, t := Now(l), Now(Lived(l, DoCancel(h)));
            if Holds(s.c, h) then Withdrawn(s, t, h) else t == s
  {
    AlwaysNumbered(l);
    hide Valid, Withdrawn;
    if Holds(Now(l).c, h) {
      Withdraws(Now(l), h);
    }
  }

  lemma Withdraws(s: System, h: Handle)
    requires Valid(s.c) && Possible(s, DoCancel(h)) && Holds(s.c, h) && h.generation > 0
    ensures Withdrawn(s, Step(s, DoCancel(h)), h)
  {
    hide Valid, Retire;
  }

  /** Work that is deferred waits behind what is queued already. */
  lemma DeferOutcome(l: Life)
    requires Lawful(Lived(l, DoDefer))
    ensures var s, t := Now(l), Now(Lived(l, DoDefer));
            t == s.(c := t.c) && t.c == s.c.(deferred := s.c.deferred + [Task])
  {
    hide Valid;
  }

  // --- What is overdue -----------------------------------------------------------------------------

  /** The request a handle stands for is still in the table. */
  predicate Holds(c: Client, h: Handle) {
    h.slot < |c.pending| && c.pending[h.slot].active && c.pending[h.slot].generation == h.generation
  }

  predicate Overdue(pending: seq<Entry>, now: int, h: Handle) {
    && h.slot < |pending| && pending[h.slot].active && pending[h.slot].deadline <= now
    && h.generation == pending[h.slot].generation
  }

  predicate InTableOrder(handles: seq<Handle>) {
    forall j, k :: 0 <= j < k < |handles| ==> handles[j].slot < handles[k].slot
  }

  lemma {:induction false} ExpiredMember(pending: seq<Entry>, now: int, h: Handle)
    ensures h in Expired(pending, now) <==> Overdue(pending, now, h)
  {
    if pending == [] {
    } else {
      var last := |pending| - 1;
      ExpiredMember(pending[..last], now, h);
    }
  }

  lemma {:induction false} ExpiredOrder(pending: seq<Entry>, now: int)
    ensures InTableOrder(Expired(pending, now))
  {
    if pending == [] {
    } else {
      var last := |pending| - 1;
      var before := Expired(pending[..last], now);
      ExpiredOrder(pending[..last], now);
      forall k | 0 <= k < |before|
        ensures before[k].slot < last
      {
        ExpiredMember(pending[..last], now, before[k]);
      }
    }
  }

  /** Exactly the active entries whose deadline has come, in the order of the table. */
  lemma ExpiredExactly(pending: seq<Entry>, now: int)
    ensures forall h :: h in Expired(pending, now) <==> Overdue(pending, now, h)
    ensures InTableOrder(Expired(pending, now))
  {
    hide Expired, Overdue, InTableOrder;
    ExpiredOrder(pending, now);
    forall h
      ensures h in Expired(pending, now) <==> Overdue(pending, now, h)
    {
      ExpiredMember(pending, now, h);
    }
  }

  /** A poll, once it has drained the queue, takes down what is overdue and touches nothing yet. */
  lemma SnapshotTakes(l: Life, now: int)
    requires At(l, Snapshot(now))
    ensures var s, t := Now(l), Now(Lived(l, Proceed));
            && Idle(s, t) && |t.stack| == |s.stack| && Rest(t) == Rest(s) && Top(t).Expire?
            && InTableOrder(Top(t).handles)
            && forall h :: h in Top(t).handles <==> Overdue(s.c.pending, now, h)
  {
    hide Valid, Now, Expired, InTableOrder, Overdue;
    Unfolds(l);
    ExpiredExactly(Now(l).c.pending, now);
  }

  /** Generation zero is never issued. */
  lemma AlwaysNumbered(l: Life)
    requires Lawful(l)
    ensures forall k :: 0 <= k < |Now(l).c.pending| && Now(l).c.pending[k].active ==>
              0 < Now(l).c.pending[k].generation < Now(l).c.nextGeneration
  {
    AlwaysValid(l);
    hide RingValid, Now;
  }

  // --- Whole calls ---------------------------------------------------------------------------------

  /** The call whose frame was at depth `d` in `k` has not been over before `l`. */
  predicate During(l: Life, k: Life, d: nat)
    requires Lawful(l)
  {
    l == k || (l.Lived? && During(l.before, k, d) && |Now(l.before).stack| > d)
  }

  lemma {:induction false} DuringLawful(l: Life, k: Life, d: nat)
    requires Lawful(l) && During(l, k, d)
    ensures Lawful(k)
  {
    if l == k {
    } else {
      DuringLawful(l.before, k, d);
    }
  }

  /** Entries are left alone, freed, or replaced by those of later requests. */
  predicate NewOnly(before: seq<Entry>, after: seq<Entry>, generation: nat) {
    && |after| == |before|
    && forall k :: 0 <= k < |after| && after[k].active ==> after[k] == before[k] || after[k].generation >= generation
  }

  lemma RequestNewOnly(c: Client, spec: Spec, sends: bool)
    requires Valid(c)
    ensures var r := Request(c, spec, sends).0;
            NewOnly(c.pending, r.pending, c.nextGeneration) && c.nextGeneration <= r.nextGeneration
  {
    hide Retire, AllocateFrom, PendingValid, RingValid;
    RingParts(c.config.maxRetired, c.retired);
  }

  lemma CancelNewOnly(c: Client, h: Handle)
    requires Valid(c)
    ensures var r := Cancel(c, h);
            NewOnly(c.pending, r.pending, c.nextGeneration) && c.nextGeneration == r.nextGeneration
  {
    hide Retire, PendingValid, RingValid;
    RingParts(c.config.maxRetired, c.retired);
  }

  lemma ProgressNewOnly(s: System)
    requires Valid(s.c)
    ensures var r := Progress(s).c;
            NewOnly(s.c.pending, r.pending, s.c.nextGeneration) && s.c.nextGeneration == r.nextGeneration
  {
    hide Retire, Valid, Resolve, Matches, Expired;
  }

  lemma StepNewOnly(s: System, call: Call)
    requires Valid(s.c) && Possible(s, call)
    ensures var r := Step(s, call).c;
            NewOnly(s.c.pending, r.pending, s.c.nextGeneration) && s.c.nextGeneration <= r.nextGeneration
  {
    hide Valid, Progress, Request, Cancel, AbandonedNumber, CancelledNumber;
    match call
    case DoRequest(spec, sends) => RequestNewOnly(s.c, spec, sends);
    case DoCancel(handle) => CancelNewOnly(s.c, handle);
    case Proceed => ProgressNewOnly(s);
    case DoDefer =>
    case DoPoll(_) =>
    case DoRebind =>
    case DoBytes(_, _) =>
    case DoDisconnect =>
    case DoDestroy =>
    case Return =>
  }

  /** What runs above a frame leaves it alone. */
  lemma StepAbove(s: System, call: Call, d: nat)
    requires Valid(s.c) && Possible(s, call) && |s.stack| > d + 1
    ensures |Step(s, call).stack| > d && Step(s, call).stack[d] == s.stack[d]
  {
    hide Valid, Request, Cancel, AbandonedNumber, CancelledNumber, Detach, Resolve, Matches, Expired, Arrival;
  }

  /**
    Failing everything: the frame at depth `d` goes through the table, or hands out what came before the
    stream broke and will; behind it only requests of generation `g` or later are pending.
   */
  predicate Failed(s: System, d: nat, g: nat) {
    && g <= s.c.nextGeneration && |s.stack| >= d
    && (|s.stack| > d ==> s.stack[d].FailAll? || (s.stack[d].Feed? && s.stack[d].broken))
    && forall k :: 0 <= k < |s.c.pending| && s.c.pending[k].active && k < Behind(s, d) ==>
         s.c.pending[k].generation >= g
  }

  /** The places of the table the frame at depth `d` has passed. */
  function Behind(s: System, d: nat): nat {
    if |s.stack| <= d then |s.c.pending| else if s.stack[d].FailAll? then s.stack[d].index else 0
  }

  lemma FailedStep(s: System, call: Call, d: nat, g: nat)
    requires Valid(s.c) && Possible(s, call) && Failed(s, d, g) && |s.stack| > d
    ensures Failed(Step(s, call), d, g)
  {
    hide Valid, Retire;
    if |s.stack| > d + 1 {
      StepAbove(s, call, d);
      StepNewOnly(s, call);
      hide Step, Possible;
    } else {
      assert call == Proceed && Top(s) == s.stack[d];
      FailedOwn(s, d, g);
    }
  }

  lemma FailedOwn(s: System, d: nat, g: nat)
    requires Valid(s.c) && Failed(s, d, g) && |s.stack| == d + 1
    ensures Failed(Progress(s), d, g)
  {
    hide Valid, Retire, Matches, FailStep;
    assert Top(s) == s.stack[d];
    if s.stack[d].FailAll? {
      FailedPlace(s, d, g);
    } else {
      ProgressNewOnly(s);
    }
  }

  lemma FailedPlace(s: System, d: nat, g: nat)
    requires Valid(s.c) && Failed(s, d, g) && |s.stack| == d + 1 && s.stack[d].FailAll?
    ensures Failed(FailStep(s, s.stack[d].index), d, g)
  {
    hide Valid, Retire;
  }

  lemma {:induction false} FailedThrough(l: Life, k: Life, d: nat, g: nat)
    requires Lawful(l) && During(l, k, d) && Lawful(k) && Failed(Now(k), d, g)
    ensures Failed(Now(l), d, g)
  {
    hide Valid, Step, Possible, Failed;
    if l == k {
    } else {
      FailedThrough(l.before, k, d, g);
      FailedStep(Now(l.before), l.call, d, g);
    }
  }

  /** A call that fails everything: the link drops, the stream breaks, or messages come in the middle of others. */
  predicate Breaks(s: System, call: Call) {
    call.DoDisconnect? || (call.DoBytes? && (call.broken || Feeding(s.stack)))
  }

  lemma BreakBegins(s: System, call: Call)
    requires Valid(s.c) && Possible(s, call) && Breaks(s, call)
    ensures Failed(Step(s, call), |s.stack|, s.c.nextGeneration)
    ensures Step(s, call).c.pending == s.c.pending && |Step(s, call).stack| == |s.stack| + 1
    ensures call.DoDisconnect? ==> !Step(s, call).c.connected
  {
    hide Valid;
  }

  /**
    Once the link has dropped or the stream has broken, everything that was pending at that moment is out
    of the table by the time the call is over, whatever the callbacks did in the meantime.
   */
  lemma EverythingFailed(l: Life, k: Life, call: Call)
    requires Lawful(l) && Lawful(Lived(k, call)) && Breaks(Now(k), call)
    requires During(l, Lived(k, call), |Now(k).stack|) && |Now(l).stack| == |Now(k).stack|
    ensures forall i :: 0 <= i < |Now(k).c.pending| && Now(k).c.pending[i].active ==>
              !Holds(Now(l).c, Handle(i, Now(k).c.pending[i].generation))
  {
    hide Valid, Step, Possible;
    BreakBegins(Now(k), call);
    hide Now;
    FailedThrough(l, Lived(k, call), |Now(k).stack|, Now(k).c.nextGeneration);
    AlwaysNumbered(k);
  }

  /** The same for a new transport, which is connected once everything on the old one has failed. */
  predicate Relinking(s: System, d: nat, g: nat) {
    && |s.stack| >= d && (|s.stack| > d ==> s.stack[d].Relink? && Failed(s, d + 1, g))
    && (|s.stack| == d ==> Failed(s, d, g) && s.c.connected)
  }

  lemma RelinkingStep(s: System, call: Call, d: nat, g: nat)
    requires Valid(s.c) && Possible(s, call) && Relinking(s, d, g) && |s.stack| > d
    ensures Relinking(Step(s, call), d, g)
  {
    hide Valid;
    if |s.stack| > d + 1 {
      FailedStep(s, call, d + 1, g);
      StepAbove(s, call, d);
      hide Step, Possible, Failed;
    } else {
      assert call == Proceed && Top(s) == s.stack[d];
    }
  }

  lemma {:induction false} RelinkingThrough(l: Life, k: Life, d: nat, g: nat)
    requires Lawful(l) && During(l, k, d) && Lawful(k) && Relinking(Now(k), d, g)
    ensures Relinking(Now(l), d, g)
  {
    hide Valid, Step, Possible, Relinking;
    if l == k {
    } else {
      RelinkingThrough(l.before, k, d, g);
      RelinkingStep(Now(l.before), l.call, d, g);
    }
  }

  lemma RelinkBegins(s: System)
    requires Valid(s.c) && Possible(s, DoRebind)
    ensures Relinking(Step(s, DoRebind), |s.stack|, s.c.nextGeneration) && Step(s, DoRebind).c == s.c
  {
    hide Valid;
  }

  lemma RebindFailsAndConnects(l: Life, k: Life)
    requires Lawful(l) && Lawful(Lived(k, DoRebind))
    requires During(l, Lived(k, DoRebind), |Now(k).stack|) && |Now(l).stack| == |Now(k).stack|
    ensures Now(l).c.connected
    ensures forall i :: 0 <= i < |Now(k).c.pending| && Now(k).c.pending[i].active ==>
              !Holds(Now(l).c, Handle(i, Now(k).c.pending[i].generation))
  {
    hide Valid, Step, Possible;
    RelinkBegins(Now(k));
    hide Now;
    RelinkingThrough(l, Lived(k, DoRebind), |Now(k).stack|, Now(k).c.nextGeneration);
    AlwaysNumbered(k);
  }

  /**
    A poll at `now`, after its snapshot of the table `first`: what was overdue then is still to come or
    out of the table, nothing else is to come, and what is in the table was there then or is newer than
    generation `g`.
   */
  ghost predicate Polled(s: System, d: nat, now: int, first: seq<Entry>, g: nat) {
    && g <= s.c.nextGeneration && |s.stack| >= d && (|s.stack| > d ==> s.stack[d].Expire?)
    && NewOnly(first, s.c.pending, g)
    && (forall h :: Overdue(first, now, h) ==> Coming(s, d, h) || !Holds(s.c, h))
    && forall h :: Coming(s, d, h) ==> Overdue(first, now, h)
  }

  predicate Coming(s: System, d: nat, h: Handle) {
    |s.stack| > d && s.stack[d].Expire? && h in s.stack[d].handles
  }

  predicate Numbered(first: seq<Entry>, g: nat) {
    forall k :: 0 <= k < |first| && first[k].active ==> 0 < first[k].generation < g
  }

  /** A request that is gone stays gone: its generation is not used again. */
  lemma GoneStays(s: System, call: Call, h: Handle)
    requires Valid(s.c) && Possible(s, call) && !Holds(s.c, h) && h.generation < s.c.nextGeneration
    ensures !Holds(Step(s, call).c, h)
  {
    StepNewOnly(s, call);
    hide Valid, Step, Possible;
  }

  lemma PolledAbove(s: System, call: Call, d: nat, now: int, first: seq<Entry>, g: nat)
    requires Valid(s.c) && Possible(s, call) && Numbered(first, g) && Polled(s, d, now, first, g) && |s.stack| > d + 1
    ensures Polled(Step(s, call), d, now, first, g)
  {
    hide Valid, Step, Possible;
    StepAbove(s, call, d);
    StepNewOnly(s, call);
    var t := Step(s, call);
    assert forall h :: Coming(t, d, h) <==> Coming(s, d, h);
    forall h | Overdue(first, now, h)
      ensures Coming(t, d, h) || !Holds(t.c, h)
    {
      if !Holds(s.c, h) {
        GoneStays(s, call, h);
      }
    }
  }

  /** The step of the poll itself. */
  lemma PolledOwn(s: System, d: nat, now: int, first: seq<Entry>, g: nat)
    requires Valid(s.c) && Numbered(first, g) && Polled(s, d, now, first, g) && |s.stack| == d + 1
    ensures Possible(s, Proceed) && Polled(Step(s, Proceed), d, now, first, g)
  {
    var t, handles := Step(s, Proceed), s.stack[d].handles;
    assert Top(s) == s.stack[d];
    StepNewOnly(s, Proceed);
    assert forall h :: Coming(s, d, h) <==> h in handles;
    OwnStep(s, d, handles);
    hide Valid, Step, Possible;
    forall h | Overdue(first, now, h)
      ensures Coming(t, d, h) || !Holds(t.c, h)
    {
      if !Holds(s.c, h) {
        GoneStays(s, Proceed, h);
      }
    }
  }

  lemma OwnStep(s: System, d: nat, handles: seq<Handle>)
    requires Valid(s.c) && |s.stack| == d + 1 && s.stack[d] == Expire(handles)
    ensures var t := Step(s, Proceed);
            && |t.stack| >= d && (|t.stack| > d ==> t.stack[d].Expire?)
            && (forall h :: Coming(t, d, h) ==> h in handles)
            && (forall h :: h in handles && h.generation > 0 ==> Coming(t, d, h) || !Holds(t.c, h))
  {
    hide Valid, Retire;
    assert Top(s) == s.stack[d];
    if handles != [] {
      assert handles == [handles[0]] + handles[1..];
      assert handles[0] in handles;
    }
  }

  lemma PolledAtFirst(s: System, d: nat, now: int)
    requires Valid(s.c) && |s.stack| == d + 1 && s.stack[d] == Snapshot(now)
    ensures Possible(s, Proceed) && Polled(Step(s, Proceed), d, now, s.c.pending, s.c.nextGeneration)
  {
    hide Valid, Expired, Overdue;
    assert Top(s) == s.stack[d];
    ExpiredExactly(s.c.pending, now);
    var t := Step(s, Proceed);
    assert t.stack[d] == Expire(Expired(s.c.pending, now));
    assert forall h :: Coming(t, d, h) <==> h in Expired(s.c.pending, now);
  }

  lemma {:induction false} PolledThrough(l: Life, k: Life, d: nat, now: int)
    requires Lawful(l) && During(l, k, d) && Lawful(k) && |Now(k).stack| == d + 1 && Now(k).stack[d] == Snapshot(now)
    requires l != k
    ensures Polled(Now(l), d, now, Now(k).c.pending, Now(k).c.nextGeneration)
  {
    hide Valid, Step, Possible, Polled;
    if l.before == k {
      AtSnapshot(Now(k), l.call, d);
      PolledAtFirst(Now(k), d, now);
    } else {
      PolledThrough(l.before, k, d, now);
      AlwaysNumbered(k);
      if |Now(l.before).stack| > d + 1 {
        PolledAbove(Now(l.before), l.call, d, now, Now(k).c.pending, Now(k).c.nextGeneration);
      } else {
        AtExpiry(Now(l.before), l.call, d, now, Now(k).c.pending, Now(k).c.nextGeneration);
        PolledOwn(Now(l.before), d, now, Now(k).c.pending, Now(k).c.nextGeneration);
      }
    }
  }

  lemma AtSnapshot(s: System, call: Call, d: nat)
    requires Possible(s, call) && |s.stack| == d + 1 && s.stack[d].Snapshot?
    ensures call == Proceed
  {
  }

  lemma AtExpiry(s: System, call: Call, d: nat, now: int, first: seq<Entry>, g: nat)
    requires Possible(s, call) && |s.stack| == d + 1 && Polled(s, d, now, first, g)
    ensures call == Proceed
  {
  }

  /** A poll completes nothing else: what it completes was pending and overdue at the snapshot. */
  lemma PollSpares(l: Life, k: Life, d: nat, now: int, i: nat)
    requires Lawful(Lived(l, Proceed)) && During(l, k, d) && l != k
    requires Lawful(k) && |Now(k).stack| == d + 1 && Now(k).stack[d] == Snapshot(now)
    requires |Now(l).stack| == d + 1 && Completes(Now(l), Now(Lived(l, Proceed)), i)
    ensures i < |Now(k).c.pending| && Now(l).c.pending[i] == Now(k).c.pending[i]
    ensures Now(k).c.pending[i].active && Now(k).c.pending[i].deadline <= now
  {
    assert Lawful(l);
    hide Now, Lawful, Completes, NewOnly, Holds, Overdue;
    PolledThrough(l, k, d, now);
    AlwaysNumbered(k);
    var s := Now(l);
    assert Top(s) == s.stack[d];
    ExpiryPicks(l, s.stack[d].handles, i);
    assert Coming(s, d, s.stack[d].handles[0]);
    StillThere(s, d, now, Now(k).c.pending, Now(k).c.nextGeneration, s.stack[d].handles[0]);
  }

  /** What a poll completes is what its next handle stands for. */
  lemma ExpiryPicks(l: Life, handles: seq<Handle>, i: nat)
    requires At(l, Expire(handles)) && Completes(Now(l), Now(Lived(l, Proceed)), i)
    ensures handles != [] && i == handles[0].slot && Holds(Now(l).c, handles[0])
  {
    assert Lawful(l);
    hide Now, Lawful, Completes;
    if handles == [] {
      ExpiryOver(l, i);
    } else {
      ExpiryCompletes(l, handles);
      OneCompletion(Now(l), Now(Lived(l, Proceed)), i, handles[0].slot);
    }
  }

  lemma StillThere(s: System, d: nat, now: int, first: seq<Entry>, g: nat, h: Handle)
    requires Numbered(first, g) && Polled(s, d, now, first, g) && Coming(s, d, h) && Holds(s.c, h)
    ensures Overdue(first, now, h) && s.c.pending[h.slot] == first[h.slot]
  {
  }

  lemma ExpiryOver(l: Life, i: nat)
    requires At(l, Expire([]))
    ensures !Completes(Now(l), Now(Lived(l, Proceed)), i)
  {
    hide Valid, Now;
    Unfolds(l);
  }

  lemma OneCompletion(s: System, t: System, i: nat, j: nat)
    requires Completes(s, t, i) && (Completes(s, t, j) || Idle(s, t))
    ensures i == j && Completes(s, t, j)
  {
  }

  /**
    A whole poll at `now`, called on the table `first`: what was overdue then is out of the table, or the
    snapshot is still to be taken, or the snapshot still has it.
   */
  ghost predicate Polling(s: System, d: nat, now: int, first: seq<Entry>, g: nat) {
    && g <= s.c.nextGeneration && |s.stack| >= d && NewOnly(first, s.c.pending, g)
    && (if |s.stack| == d then s.c.deferred == [] else s.stack[d].Drain?)
    && ((|s.stack| > d + 1 && s.stack[d + 1] == Snapshot(now))
        || forall h :: Overdue(first, now, h) ==> Coming(s, d + 1, h) || !Holds(s.c, h))
  }

  lemma GoneOrComingAbove(s: System, call: Call, d: nat, now: int, first: seq<Entry>, g: nat)
    requires Valid(s.c) && Possible(s, call) && Numbered(first, g) && Polling(s, d, now, first, g) && |s.stack| > d + 2
    ensures Polling(Step(s, call), d, now, first, g)
  {
    hide Valid, Step, Possible;
    StepAbove(s, call, d);
    StepAbove(s, call, d + 1);
    StepNewOnly(s, call);
    var t, e := Step(s, call), d + 1;
    assert forall h :: Coming(t, e, h) <==> Coming(s, e, h);
    forall h | Overdue(first, now, h) && !Holds(s.c, h)
      ensures !Holds(t.c, h)
    {
      GoneStays(s, call, h);
    }
  }

  lemma SnapshotHasAll(s: System, d: nat, now: int, first: seq<Entry>, g: nat)
    requires Valid(s.c) && Numbered(first, g) && Polling(s, d, now, first, g)
    requires |s.stack| == d + 2 && s.stack[d + 1] == Snapshot(now)
    ensures Polling(Progress(s), d, now, first, g)
  {
    hide Valid, Expired;
    assert Top(s) == s.stack[d + 1];
    ExpiredExactly(s.c.pending, now);
    var t := Progress(s);
    assert t.stack[d + 1] == Expire(Expired(s.c.pending, now)) && t.stack[d] == s.stack[d];
    forall h | Overdue(first, now, h)
      ensures Coming(t, d + 1, h) || !Holds(t.c, h)
    {
      assert h in Expired(s.c.pending, now) <==> Overdue(s.c.pending, now, h);
    }
  }

  lemma SnapshotHandled(s: System, call: Call, d: nat, now: int, first: seq<Entry>, g: nat)
    requires Valid(s.c) && Possible(s, call) && Numbered(first, g) && Polling(s, d, now, first, g)
    requires |s.stack| == d + 2 && s.stack[d + 1] != Snapshot(now)
    ensures Polling(Step(s, call), d, now, first, g)
  {
    var t := Step(s, call);
    StepAbove(s, call, d);
    StepNewOnly(s, call);
    if s.stack[d + 1].Expire? {
      assert Top(s) == s.stack[d + 1] && call == Proceed;
      OwnStep(s, d + 1, s.stack[d + 1].handles);
    }
    hide Valid, Step, Possible;
    forall h | Overdue(first, now, h)
      ensures Coming(t, d + 1, h) || !Holds(t.c, h)
    {
      if !Holds(s.c, h) {
        GoneStays(s, call, h);
      }
    }
  }

  lemma LastDrain(s: System, call: Call, d: nat, now: int, first: seq<Entry>, g: nat)
    requires Valid(s.c) && Possible(s, call) && Numbered(first, g) && Polling(s, d, now, first, g)
    requires |s.stack| == d + 1
    ensures Polling(Step(s, call), d, now, first, g)
  {
    hide Valid;
    assert Top(s) == s.stack[d] && call == Proceed;
  }

  lemma PollingStep(s: System, call: Call, d: nat, now: int, first: seq<Entry>, g: nat)
    requires Valid(s.c) && Possible(s, call) && Numbered(first, g) && Polling(s, d, now, first, g) && |s.stack| > d
    ensures Polling(Step(s, call), d, now, first, g)
  {
    if |s.stack| > d + 2 {
      GoneOrComingAbove(s, call, d, now, first, g);
    } else if |s.stack| == d + 1 {
      LastDrain(s, call, d, now, first, g);
    } else if s.stack[d + 1] == Snapshot(now) {
      hide Valid, Progress, Polling;
      assert Top(s) == s.stack[d + 1] && call == Proceed;
      SnapshotHasAll(s, d, now, first, g);
    } else {
      SnapshotHandled(s, call, d, now, first, g);
    }
  }

  lemma {:induction false} PollingThrough(l: Life, k: Life, d: nat, now: int, first: seq<Entry>, g: nat)
    requires Lawful(l) && During(l, k, d) && Lawful(k) && Numbered(first, g) && Polling(Now(k), d, now, first, g)
    ensures Polling(Now(l), d, now, first, g)
  {
    hide Valid, Step, Possible, Polling;
    if l == k {
    } else {
      PollingThrough(l.before, k, d, now, first, g);
      PollingStep(Now(l.before), l.call, d, now, first, g);
    }
  }

  lemma PollBegins(s: System, now: int)
    requires Valid(s.c) && Possible(s, DoPoll(now))
    ensures Polling(Step(s, DoPoll(now)), |s.stack|, now, s.c.pending, s.c.nextGeneration)
  {
    hide Valid;
  }

  /**
    Once a poll at `now` returns, nothing that was pending and overdue when it was called is in the table
    any more, and the queue is empty, whatever the callbacks did in the meantime.
   */
  lemma PollExpires(l: Life, k: Life, now: int)
    requires Lawful(l) && Lawful(Lived(k, DoPoll(now)))
    requires During(l, Lived(k, DoPoll(now)), |Now(k).stack|) && |Now(l).stack| == |Now(k).stack|
    ensures Now(l).c.deferred == []
    ensures var first := Now(k).c.pending;
            forall i :: 0 <= i < |first| && first[i].active && first[i].deadline <= now ==>
              !Holds(Now(l).c, Handle(i, first[i].generation))
  {
    hide Valid, Step, Possible;
    PollBegins(Now(k), now);
    AlwaysNumbered(k);
    hide Now;
    var first := Now(k).c.pending;
    PollingThrough(l, Lived(k, DoPoll(now)), |Now(k).stack|, now, first, Now(k).c.nextGeneration);
    forall i | 0 <= i < |first| && first[i].active && first[i].deadline <= now
      ensures !Holds(Now(l).c, Handle(i, first[i].generation))
    {
      assert Overdue(first, now, Handle(i, first[i].generation));
    }
  }

  // --- What is queued is delivered -----------------------------------------------------------------

  /** What runs above a frame leaves everything below it alone. */
  lemma StepBelow(s: System, call: Call, d: nat)
    requires Valid(s.c) && Possible(s, call) && |s.stack| > d
    ensures |Step(s, call).stack| >= d && Step(s, call).stack[..d] == s.stack[..d]
  {
    hide Valid, Request, Cancel, AbandonedNumber, CancelledNumber, Detach, Resolve, Matches, Expired, Arrival;
  }

  /** Callback `id` was issued, is not in the table, and no frame below depth `d` has it. */
  predicate Elsewhere(s: System, d: nat, id: nat) {
    id < s.c.issued && |s.stack| >= d && Absentee(s.c.pending, id) && InStack(s.stack[..d], id) == 0
  }

  predicate Absentee(pending: seq<Entry>, id: nat) {
    forall k :: 0 <= k < |pending| ==> pending[k].callback != Some(id)
  }

  lemma StepAbsentee(s: System, call: Call, id: nat)
    requires Valid(s.c) && Possible(s, call) && id < s.c.issued && Absentee(s.c.pending, id)
    ensures id < Step(s, call).c.issued && Absentee(Step(s, call).c.pending, id)
  {
    hide Valid, Retire, Resolve, Matches, Expired, AllocateFrom, AbandonedNumber, CancelledNumber;
    match call
    case DoRequest(spec, sends) => RequestLater(s.c, spec, sends, s.c.issued);
    case DoCancel(handle) => CancelLater(s.c, handle, s.c.issued);
    case Proceed => ProgressAbsentee(s, id);
    case DoDefer =>
    case DoPoll(_) =>
    case DoRebind =>
    case DoBytes(_, _) =>
    case DoDisconnect =>
    case DoDestroy =>
    case Return =>
  }

  lemma ProgressAbsentee(s: System, id: nat)
    requires Valid(s.c) && id < s.c.issued && Absentee(s.c.pending, id)
    ensures Progress(s).c.issued == s.c.issued && Absentee(Progress(s).c.pending, id)
  {
    hide Valid, Retire, Resolve, Matches, Expired;
  }

  lemma {:induction false} StaysElsewhere(l: Life, k: Life, d: nat, id: nat)
    requires Lawful(l) && During(l, k, d) && Lawful(k) && Elsewhere(Now(k), d, id)
    ensures Elsewhere(Now(l), d, id)
  {
    hide Valid, Step, Possible, Absentee, InStack;
    if l == k {
    } else {
      StaysElsewhere(l.before, k, d, id);
      StepBelow(Now(l.before), l.call, d);
      StepAbsentee(Now(l.before), l.call, id);
    }
  }

  /** A queued callback is nowhere else. */
  lemma QueuedOnly(s: System, id: nat)
    requires Completion(id) in s.c.deferred && Accounted(s, id)
    ensures id < s.c.issued && Absentee(s.c.pending, id) && InStack(s.stack, id) == 0
  {
    hide InStack, Absentee, Callbacks;
    assert InWork(s.c.deferred, id) >= 1;
    AbsenteeCounts(s.c.pending, id);
  }

  lemma AbsenteeCounts(pending: seq<Entry>, id: nat)
    ensures Absentee(pending, id) <==> multiset(Callbacks(pending))[Some(id)] == 0
  {
    assert forall k :: 0 <= k < |pending| ==> Callbacks(pending)[k] == pending[k].callback;
    assert Absentee(pending, id) <==> Some(id) !in Callbacks(pending);
  }

  /** Whatever was queued when a poll was called has been delivered when it returns. */
  lemma PollDelivers(l: Life, k: Life, now: int, id: nat)
    requires Lawful(l) && Lawful(Lived(k, DoPoll(now))) && Completion(id) in Now(k).c.deferred
    requires During(l, Lived(k, DoPoll(now)), |Now(k).stack|) && |Now(l).stack| == |Now(k).stack|
    ensures id in Now(l).delivered
  {
    hide Valid, Step, Possible, InStack, Absentee;
    ExactlyOnePlace(k, id);
    QueuedOnly(Now(k), id);
    PollPushes(Now(k), now);
    var d := |Now(k).stack|;
    StaysElsewhere(l, Lived(k, DoPoll(now)), d, id);
    PollExpires(l, k, now);
    ExactlyOnePlace(l, id);
    hide Now;
    var s := Now(l);
    assert s.stack[..d] == s.stack;
    AbsenteeCounts(s.c.pending, id);
    assert Delivered(s, id) == 1;
  }

  lemma PollPushes(s: System, now: int)
    requires Valid(s.c) && Possible(s, DoPoll(now))
    ensures Step(s, DoPoll(now)).c == s.c && Step(s, DoPoll(now)).stack[..|s.stack|] == s.stack
    ensures |Step(s, DoPoll(now)).stack| >= |s.stack|
  {
    hide Valid;
  }
}
