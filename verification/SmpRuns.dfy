/**
  Whole lives of an SMP client, with the application inside: every callback may call back into the
  client before it returns. The client's loops over callbacks are frames on a stack, so that what an
  application does in the middle of one is an ordinary step.
 */
module SmpRuns {
  import opened Common
  import opened SmpClient

  /** A message as the assembler hands it over. */
  datatype Message = Message(number: nat, key: Key)

  /** What is left to do of a call in progress. */
  datatype Frame =
    | Callback                                        // the application is running
    | Drain(batch: seq<Work>)                         // deliver_deferred(), with the rest of a batch
    | Snapshot(now: int)                              // poll(), before it looks for expired requests
    | Expire(handles: seq<Handle>)                    // poll(), with the rest of the expired ones
    | FailAll(index: nat)                             // fail_all(), from this place of the table on
    | Feed(messages: seq<Message>, broken: bool)      // on_bytes(), with the rest of the messages
    | Relink                                          // rebind_transport(), once everything has failed

  datatype Phase = Alive | Draining | Failing | Finishing | Dead

  /**
    `delivered` are the callbacks that ran, `log` the numbers retired, both in order; `mark` is how many
    requests had been issued when the destructor began to fail them.
   */
  datatype System = System(c: Client, stack: seq<Frame>, phase: Phase, delivered: seq<nat>, log: seq<nat>, mark: nat)

  function Begin(config: Config): System {
    System(Fresh(config), [], Alive, [], [], 0)
  }

  // --- Steps -------------------------------------------------------------------------------------

  datatype Call =
    | DoRequest(spec: Spec, sends: bool)
    | DoCancel(handle: Handle)
    | DoDefer
    | DoPoll(now: int)
    | DoRebind
    | DoBytes(messages: seq<Message>, broken: bool)
    | DoDisconnect
    | DoDestroy
    | Return
    | Proceed

  function Top(s: System): Frame
    requires s.stack != []
  {
    s.stack[|s.stack| - 1]
  }

  function Rest(s: System): seq<Frame>
    requires s.stack != []
  {
    s.stack[..|s.stack| - 1]
  }

  /** Control is with the application: in a callback, or outside every call while the client lives. */
  predicate AppHasControl(s: System) {
    if s.stack == [] then s.phase.Alive? else Top(s).Callback?
  }

  /**
    What may happen next. Whenever the application has control it calls the client, or lets the transport
    have its turn, which delivers or drops the link; the destructor runs only outside every call;
    everything else is the client's own progress.
   */
  predicate Possible(s: System, call: Call) {
    match call
    case DoRequest(_, _) => AppHasControl(s)
    case DoCancel(_) => AppHasControl(s)
    case DoDefer => AppHasControl(s)
    case DoPoll(_) => AppHasControl(s)
    case DoRebind => AppHasControl(s)
    case DoBytes(messages, _) => AppHasControl(s) && forall k :: 0 <= k < |messages| ==>
        messages[k].number < SEQ_SPACE
    case DoDisconnect => AppHasControl(s)
    case DoDestroy => s.stack == [] && s.phase.Alive?
    case Return => s.stack != [] && Top(s).Callback?
    case Proceed => (s.stack != [] && !Top(s).Callback?) || (s.stack == [] && !s.phase.Alive? && !s.phase.Dead?)
  }

  /** Runs a callback, if there is one: it counts as delivered the moment it is called. */
  function Calling(s: System, callback: Option<nat>): System {
    if callback.None? then s else s.(stack := s.stack + [Callback], delivered := s.delivered + [callback.value])
  }

  /** Takes entry `i` out of the table and runs its callback. */
  function Complete(s: System, i: nat): System
    requires Valid(s.c) && i < |s.c.pending| && s.c.pending[i].active
  {
    Calling(s.(c := Detach(s.c, i), log := s.log + [s.c.pending[i].number]), s.c.pending[i].callback)
  }

  /** One step of deliver_deferred(): the next item, the next batch, or done. */
  function DrainStep(s: System, batch: seq<Work>): System
    requires s.stack != []
  {
    if batch != [] then
      var t := s.(stack := Rest(s) + [Drain(batch[1..])]);
      match batch[0]
      case Completion(id) => Calling(t, Some(id))
      case Task => t.(stack := t.stack + [Callback])
    else if s.c.deferred != [] then s.(c := s.c.(deferred := []), stack := Rest(s) + [Drain(s.c.deferred)])
    else s.(stack := Rest(s))
  }

  function ExpireStep(s: System, handles: seq<Handle>): System
    requires Valid(s.c) && s.stack != []
  {
    if handles == [] then s.(stack := Rest(s)) else
    var t := s.(stack := Rest(s) + [Expire(handles[1..])]);
    match Resolve(s.c, handles[0])
    case None => t
    case Some(i) => Complete(t, i)
  }

  function FailStep(s: System, index: nat): System
    requires Valid(s.c) && s.stack != []
  {
    if index >= |s.c.pending| then s.(stack := Rest(s)) else
    var t := s.(stack := Rest(s) + [FailAll(index + 1)]);
    if s.c.pending[index].active then Complete(t, index) else t
  }

  function FeedStep(s: System, messages: seq<Message>, broken: bool): System
    requires Valid(s.c) && s.stack != []
  {
    if messages == [] then s.(stack := Rest(s) + if broken then [FailAll(0)] else [])
    else
      var t := s.(stack := Rest(s) + [Feed(messages[1..], broken)]);
      match Matches(s.c, messages[0].number, messages[0].key)
      case None => t
      case Some(i) => Complete(t, i)
  }

  /** The destructor's own three stages, each begun when the one before has finished. */
  function ShutdownStep(s: System): System {
    match s.phase
    case Draining => s.(phase := Failing, stack := [FailAll(0)], mark := s.c.issued)
    case Failing => s.(phase := Finishing, stack := [Drain([])])
    case _ => s.(phase := Dead)
  }

  function Progress(s: System): System
    requires Valid(s.c)
  {
    if s.stack == [] then ShutdownStep(s)
    else match Top(s)
      case Drain(batch) => DrainStep(s, batch)
      case Snapshot(now) => s.(stack := Rest(s) + [Expire(Expired(s.c.pending, now))])
      case Expire(handles) => ExpireStep(s, handles)
      case FailAll(index) => FailStep(s, index)
      case Feed(messages, broken) => FeedStep(s, messages, broken)
      case Relink => s.(c := s.c.(connected := true), stack := Rest(s))
      case Callback => s
  }

  /** Some call in progress is still handing out the messages of an earlier delivery. */
  predicate Feeding(stack: seq<Frame>) {
    exists k :: 0 <= k < |stack| && stack[k].Feed?
  }

  /** What a delivery leads to: its messages, or, in the middle of another one, the failure of everything pending. */
  function Arrival(stack: seq<Frame>, messages: seq<Message>, broken: bool): Frame {
    if Feeding(stack) then FailAll(0) else Feed(messages, broken)
  }

  /** A number allocated for a request that could not be sent is retired on the spot. */
  function AbandonedNumber(c: Client, spec: Spec, sends: bool): seq<nat>
    requires Valid(c)
  {
    var n := AllocateFrom(c.pending, c.retired, c.nextSeq, 0);
    if c.connected && spec.size <= c.config.maxPayload && FreeSlotFrom(c.pending, 0).Some? && n.Some? && !sends then
        [n.value] else []
  }

  function CancelledNumber(c: Client, h: Handle): seq<nat> {
    match Resolve(c, h)
    case None => []
    case Some(i) => [c.pending[i].number]
  }

  function Step(s: System, call: Call): System
    requires Valid(s.c) && Possible(s, call)
  {
    match call
    case DoRequest(spec, sends) => s.(c := Request(s.c, spec, sends).0,
                                      log := s.log + AbandonedNumber(s.c, spec, sends))
    case DoCancel(handle) => s.(c := Cancel(s.c, handle), log := s.log + CancelledNumber(s.c, handle))
    case DoDefer => s.(c := s.c.(deferred := s.c.deferred + [Task]))
    case DoPoll(now) => s.(stack := s.stack + [Drain([]), Snapshot(now), Drain([])])
    case DoRebind => s.(stack := s.stack + [Relink, FailAll(0)])
    case DoBytes(messages, broken) => s.(stack := s.stack + [Arrival(s.stack, messages, broken)])
    case DoDisconnect => s.(c := s.c.(connected := false), stack := s.stack + [FailAll(0)])
    case DoDestroy => s.(phase := Draining, stack := [Drain([])])
    case Return => s.(stack := Rest(s))
    case Proceed => Progress(s)
  }

  /** A life of a client: one step after another. */
  datatype Life = Born(config: Config) | Lived(before: Life, call: Call)

  predicate Lawful(l: Life)
    decreases l, 0
  {
    l.Lived? ==> Lawful(l.before) && Valid(Now(l.before).c) && Possible(Now(l.before), l.call)
  }

  function Now(l: Life): System
    requires Lawful(l)
    decreases l, 1
  {
    match l
    case Born(config) => Begin(config)
    case Lived(before, call) => Step(Now(before), call)
  }

  // --- The client stays valid ---------------------------------------------------------------------

  lemma CompleteValid(s: System, i: nat)
    requires Valid(s.c) && i < |s.c.pending| && s.c.pending[i].active
    ensures Valid(Complete(s, i).c) && Complete(s, i).c == Detach(s.c, i)
  {
    hide Valid, Detach;
    DetachValid(s.c, i);
  }

  lemma QuietValid(c: Client, deferred: seq<Work>, connected: bool)
    requires Valid(c)
    ensures Valid(c.(deferred := deferred, connected := connected))
  {
    hide RingValid, PendingValid;
  }

  lemma ProgressValid(s: System)
    requires Valid(s.c)
    ensures Valid(Progress(s).c)
  {
    hide Valid, Complete, Resolve, Matches, Expired;
    QuietValid(s.c, [], s.c.connected);
    QuietValid(s.c, s.c.deferred, true);
    if s.stack != [] {
      match Top(s)
      case Expire(handles) =>
        if handles != [] && Resolve(s.c, handles[0]).Some? {
          CompleteValid(s.(stack := Rest(s) + [Expire(handles[1..])]), Resolve(s.c, handles[0]).value);
        }
      case FailAll(index) =>
        if index < |s.c.pending| && s.c.pending[index].active {
          CompleteValid(s.(stack := Rest(s) + [FailAll(index + 1)]), index);
        }
      case Feed(messages, broken) =>
        if messages != [] && Matches(s.c, messages[0].number, messages[0].key).Some? {
          CompleteValid(s.(stack := Rest(s) + [Feed(messages[1..], broken)]),
                        Matches(s.c, messages[0].number, messages[0].key).value);
        }
      case Callback =>
      case Drain(_) =>
      case Snapshot(_) =>
      case Relink =>
    }
  }

  lemma StepValid(s: System, call: Call)
    requires Valid(s.c) && Possible(s, call)
    ensures Valid(Step(s, call).c)
  {
    hide Valid, Progress, Request, Cancel, AbandonedNumber, CancelledNumber;
    QuietValid(s.c, s.c.deferred + [Task], s.c.connected);
    QuietValid(s.c, s.c.deferred, false);
    match call
    case DoRequest(spec, sends) => RequestValid(s.c, spec, sends);
    case DoCancel(handle) => CancelValid(s.c, handle);
    case Proceed => ProgressValid(s);
    case DoDefer =>
    case DoPoll(_) =>
    case DoRebind =>
    case DoBytes(_, _) =>
    case DoDisconnect =>
    case DoDestroy =>
    case Return =>
  }

  /** However a life goes, the client is valid: the condition on it in `Lawful` excludes nothing. */
  lemma {:induction false} AlwaysValid(l: Life)
    requires Lawful(l)
    ensures Valid(Now(l).c)
  {
    hide Valid, Step, Possible;
    match l
    case Born(config) => FreshValid(config);
    case Lived(before, call) => StepValid(Now(before), call);
  }

  // --- Every request is in exactly one place ------------------------------------------------------

  function Callbacks(pending: seq<Entry>): (r: seq<Option<nat>>)
    ensures |r| == |pending|
  {
    seq(|pending|, k requires 0 <= k < |pending| => pending[k].callback)
  }

  function InTable(c: Client, id: nat): nat {
    multiset(Callbacks(c.pending))[Some(id)]
  }

  function InWork(work: seq<Work>, id: nat): nat {
    multiset(work)[Completion(id)]
  }

  /** Taken out of the queue by a drain that has not reached it yet. */
  function InFrame(frame: Frame, id: nat): nat {
    if frame.Drain? then InWork(frame.batch, id) else 0
  }

  function InStack(stack: seq<Frame>, id: nat): nat {
    if stack == [] then 0 else InStack(stack[..|stack| - 1], id) + InFrame(stack[|stack| - 1], id)
  }

  function Delivered(s: System, id: nat): nat {
    multiset(s.delivered)[id]
  }

  /** How many times callback `id` is anywhere: pending, deferred or delivered. */
  function Places(s: System, id: nat): nat {
    InTable(s.c, id) + InWork(s.c.deferred, id) + InStack(s.stack, id) + Delivered(s, id)
  }

  predicate Accounted(s: System, id: nat) {
    Places(s, id) == if id < s.c.issued then 1 else 0
  }

  lemma Pushed(stack: seq<Frame>, frame: Frame, id: nat)
    ensures InStack(stack + [frame], id) == InStack(stack, id) + InFrame(frame, id)
  {
    assert (stack + [frame])[..|stack|] == stack;
  }

  lemma Replaced(pending: seq<Entry>, i: nat, entry: Entry, id: nat)
    requires i < |pending|
    ensures multiset(Callbacks(pending[i := entry]))[Some(id)] + (if pending[i].callback == Some(id) then 1 else 0)
         == multiset(Callbacks(pending))[Some(id)] + (if entry.callback == Some(id) then 1 else 0)
  {
    assert Callbacks(pending[i := entry]) == Callbacks(pending)[i := entry.callback];
  }

  lemma CallingPlaces(s: System, callback: Option<nat>, id: nat)
    ensures Places(Calling(s, callback), id) == Places(s, id) + if callback == Some(id) then 1 else 0
  {
    Pushed(s.stack, Callback, id);
  }

  /** Detaching takes a callback out of the table and nowhere else. */
  lemma DetachPlaces(c: Client, i: nat, id: nat)
    requires Valid(c) && i < |c.pending| && c.pending[i].active
    ensures InTable(Detach(c, i), id) + (if c.pending[i].callback == Some(id) then 1 else 0) == InTable(c, id)
    ensures Detach(c, i).deferred == c.deferred && Detach(c, i).issued == c.issued
  {
    hide Valid, Retire;
    Replaced(c.pending, i, c.pending[i].(active := false, callback := None), id);
  }

  /** Completing a request moves its callback from the table to the delivered ones. */
  lemma CompletePlaces(s: System, i: nat, id: nat)
    requires Valid(s.c) && i < |s.c.pending| && s.c.pending[i].active
    ensures Places(Complete(s, i), id) == Places(s, id) && Complete(s, i).c.issued == s.c.issued
  {
    hide Valid, Detach, InTable, InStack, Calling;
    DetachPlaces(s.c, i, id);
    var t := s.(c := Detach(s.c, i), log := s.log + [s.c.pending[i].number]);
    CallingPlaces(t, s.c.pending[i].callback, id);
    CallingSame(t, s.c.pending[i].callback);
  }

  lemma CallingSame(s: System, callback: Option<nat>)
    ensures Calling(s, callback).c == s.c && Calling(s, callback).phase == s.phase
            && Calling(s, callback).mark == s.mark
  {
  }

  lemma OwePlaces(c: Client, callback: Option<nat>, id: nat)
    ensures var r := Owe(c, callback);
            && InWork(r.deferred, id) == InWork(c.deferred, id) + (if callback == Some(id) then 1 else 0)
            && r.pending == c.pending && r.issued == c.issued
  {
  }

  lemma RequestPlaces(s: System, spec: Spec, sends: bool, id: nat)
    requires Valid(s.c) && Accounted(s, id)
    ensures Accounted(s.(c := Request(s.c, spec, sends).0), id)
  {
    hide Valid, Retire, AllocateFrom, FreeSlotFrom, InTable, InWork, InStack, Owe;
    RequestMoves(s.c, spec, sends, id);
  }

  /** A request puts its callback into the table or the queue, once. */
  lemma RequestMoves(c: Client, spec: Spec, sends: bool, id: nat)
    requires Valid(c)
    ensures var r := Request(c, spec, sends).0;
            && InTable(r, id) + InWork(r.deferred, id)
               == InTable(c, id) + InWork(c.deferred, id) + (if CallbackOf(c, spec) == Some(id) then 1 else 0)
            && r.issued == Counted(c, spec).issued
  {
    hide Retire, AllocateFrom, Owe, RingValid;
    RingParts(c.config.maxRetired, c.retired);
    var callback := CallbackOf(c, spec);
    var slot := FreeSlotFrom(c.pending, 0);
    var n := AllocateFrom(c.pending, c.retired, c.nextSeq, 0);
    var counted := Counted(c, spec);
    OwePlaces(counted, callback, id);
    if c.connected && spec.size <= c.config.maxPayload && slot.Some? && n.Some? {
      var numbered := counted.(nextSeq := (n.value + 1) % SEQ_SPACE);
      if sends {
        Replaced(c.pending, slot.value, Entry(true, c.nextGeneration, n.value, spec.answer, spec.deadline,
                                              callback), id);
      } else {
        OwePlaces(numbered.(retired := Retire(c.config.maxRetired, c.retired, n.value)), callback, id);
      }
    }
  }

  /** Cancelling moves a callback from the table to the queue. */
  lemma CancelPlaces(c: Client, h: Handle, id: nat)
    requires Valid(c)
    ensures var r := Cancel(c, h);
            && InTable(r, id) + InWork(r.deferred, id) == InTable(c, id) + InWork(c.deferred, id)
               && r.issued == c.issued
  {
    hide Valid, Detach, InWork, Owe;
    if Resolve(c, h).Some? {
      var i := Resolve(c, h).value;
      DetachPlaces(c, i, id);
      OwePlaces(Detach(c, i), c.pending[i].callback, id);
    }
  }

  lemma TopPlaces(s: System, id: nat)
    requires s.stack != []
    ensures InStack(s.stack, id) == InStack(Rest(s), id) + InFrame(Top(s), id)
  {
  }

  lemma WorkSplit(batch: seq<Work>, id: nat)
    requires batch != []
    ensures InWork(batch, id) == InWork(batch[1..], id) + if batch[0] == Completion(id) then 1 else 0
  {
    assert batch == [batch[0]] + batch[1..];
  }

  /** Draining moves work from the queue to a batch, and from the batch to the application. */
  lemma DrainPlaces(s: System, batch: seq<Work>, id: nat)
    requires s.stack != [] && Top(s) == Drain(batch)
    ensures Places(DrainStep(s, batch), id) == Places(s, id) && DrainStep(s, batch).c.issued == s.c.issued
  {
    hide InTable, InStack, InWork;
    TopPlaces(s, id);
    if batch != [] {
      WorkSplit(batch, id);
      Pushed(Rest(s), Drain(batch[1..]), id);
      var t := s.(stack := Rest(s) + [Drain(batch[1..])]);
      if batch[0].Completion? {
        CallingPlaces(t, Some(batch[0].id), id);
      } else {
        Pushed(t.stack, Callback, id);
      }
    } else {
      NoWork(id);
      Pushed(Rest(s), Drain(s.c.deferred), id);
      SameTable(s.c, s.c.(deferred := []), id);
    }
  }

  lemma NoWork(id: nat)
    ensures InWork([], id) == 0
  {
  }

  /** Replacing the top frame by one that holds no work changes nothing. */
  lemma Reframed(s: System, frames: seq<Frame>, id: nat)
    requires s.stack != [] && !Top(s).Drain? && |frames| <= 1 && (frames != [] ==> !frames[0].Drain?)
    ensures InStack(Rest(s) + frames, id) == InStack(s.stack, id)
  {
    assert s.stack == Rest(s) + [Top(s)];
    Pushed(Rest(s), Top(s), id);
    if frames == [] {
      assert Rest(s) + frames == Rest(s);
    } else {
      assert frames == [frames[0]];
      Pushed(Rest(s), frames[0], id);
    }
  }

  lemma ProgressPlaces(s: System, id: nat)
    requires Valid(s.c) && Possible(s, Proceed)
    ensures Places(Progress(s), id) == Places(s, id) && Progress(s).c.issued == s.c.issued
  {
    hide Valid, Complete, InTable, InWork, InStack, DrainStep, Expired;
    if s.stack == [] {
      ShutdownPlaces(s, id);
    } else {
      match Top(s)
      case Drain(batch) => DrainPlaces(s, batch, id);
      case Snapshot(now) => Reframed(s, [Expire(Expired(s.c.pending, now))], id);
      case Relink =>
        Reframed(s, [], id);
        assert Rest(s) + [] == Rest(s);
        assert InTable(s.c.(connected := true), id)
            == InTable(s.c, id) by { SameTable(s.c, s.c.(connected := true), id); }
      case Expire(handles) =>
        if handles == [] {
          Reframed(s, [], id);
          assert Rest(s) + [] == Rest(s);
        } else {
          Reframed(s, [Expire(handles[1..])], id);
          if Resolve(s.c, handles[0]).Some? {
            CompletePlaces(s.(stack := Rest(s) + [Expire(handles[1..])]), Resolve(s.c, handles[0]).value, id);
          }
        }
      case FailAll(index) =>
        if index >= |s.c.pending| {
          Reframed(s, [], id);
          assert Rest(s) + [] == Rest(s);
        } else {
          Reframed(s, [FailAll(index + 1)], id);
          if s.c.pending[index].active {
            CompletePlaces(s.(stack := Rest(s) + [FailAll(index + 1)]), index, id);
          }
        }
      case Feed(messages, broken) =>
        if messages == [] {
          Reframed(s, if broken then [FailAll(0)] else [], id);
        } else {
          Reframed(s, [Feed(messages[1..], broken)], id);
          if Matches(s.c, messages[0].number, messages[0].key).Some? {
            CompletePlaces(s.(stack := Rest(s) + [Feed(messages[1..], broken)]),
                           Matches(s.c, messages[0].number, messages[0].key).value, id);
          }
        }
      case Callback =>
    }
  }

  lemma SameTable(c: Client, d: Client, id: nat)
    requires c.pending == d.pending
    ensures InTable(c, id) == InTable(d, id)
  {
  }

  lemma ShutdownPlaces(s: System, id: nat)
    requires s.stack == []
    ensures Places(ShutdownStep(s), id) == Places(s, id) && ShutdownStep(s).c == s.c
  {
    Pushed([], FailAll(0), id);
    Pushed([], Drain([]), id);
    assert [] + [FailAll(0)] == [FailAll(0)];
    assert [] + [Drain([])] == [Drain([])];
  }

  /** Frames without work pushed by a call. */
  lemma PushedAll(stack: seq<Frame>, frames: seq<Frame>, id: nat)
    requires |frames| <= 3 && forall k :: 0 <= k < |frames| ==> InFrame(frames[k], id) == 0
    ensures InStack(stack + frames, id) == InStack(stack, id)
    decreases |frames|
  {
    if frames == [] {
      assert stack + frames == stack;
    } else {
      var n := |frames| - 1;
      PushedAll(stack, frames[..n], id);
      assert stack + frames == (stack + frames[..n]) + [frames[n]];
      Pushed(stack + frames[..n], frames[n], id);
    }
  }

  lemma StepPlaces(s: System, call: Call, id: nat)
    requires Valid(s.c) && Possible(s, call) && Accounted(s, id)
    ensures Accounted(Step(s, call), id)
  {
    hide Valid, Progress, Request, Cancel, AbandonedNumber, CancelledNumber, InTable, InStack;
    match call
    case DoRequest(spec, sends) => RequestPlaces(s, spec, sends, id);
    case DoCancel(handle) => CancelPlaces(s.c, handle, id);
    case Proceed => ProgressPlaces(s, id);
    case DoDefer => SameTable(s.c, Step(s, call).c, id);
    case DoPoll(now) => PushedAll(s.stack, [Drain([]), Snapshot(now), Drain([])], id);
    case DoRebind => PushedAll(s.stack, [Relink, FailAll(0)], id);
    case DoBytes(messages, broken) =>
      Pushed(s.stack, Arrival(s.stack, messages, broken), id);
    case DoDisconnect =>
      SameTable(s.c, Step(s, call).c, id);
      Pushed(s.stack, FailAll(0), id);
    case DoDestroy =>
      PushedAll([], [Drain([])], id);
      assert [] + [Drain([])] == [Drain([])];
    case Return =>
      Reframed(s, [], id);
      assert Rest(s) + [] == Rest(s);
  }

  /**
    Exactly one completion: at every moment of every life, a request issued with a callback is in
    exactly one of three places -- pending, deferred, or delivered -- and so is delivered at most once.
   */
  lemma {:induction false} ExactlyOnePlace(l: Life, id: nat)
    requires Lawful(l)
    ensures Accounted(Now(l), id)
  {
    hide Valid, Step, Possible, Accounted;
    match l
    case Born(config) => BornAccounted(config, id);
    case Lived(before, call) =>
      ExactlyOnePlace(before, id);
      StepPlaces(Now(before), call, id);
  }

  lemma BornAccounted(config: Config, id: nat)
    ensures Accounted(Begin(config), id)
  {
    var pending := Fresh(config).pending;
    assert forall k :: 0 <= k < |pending| ==> Callbacks(pending)[k] == None;
    assert Some(id) !in Callbacks(pending);
  }

  // --- The retired numbers are the last ones retired ----------------------------------------------

  /** The ring holds exactly the last `maxRetired` numbers of the log, oldest first. */
  predicate Remembers(s: System)
    requires Valid(s.c)
  {
    Ordered(s.c.retired) == LastOf(s.log, s.c.config.maxRetired)
  }

  lemma LastOfLast(a: seq<nat>, n: nat, max: nat)
    ensures LastOf(LastOf(a, max) + [n], max) == LastOf(a + [n], max)
  {
  }

  /** Retiring one more number keeps up with the log. */
  lemma RetireLogs(max: nat, r: Retired, n: nat, log: seq<nat>)
    requires RingValid(max, r) && n < SEQ_SPACE && !r.flags[n] && Ordered(r) == LastOf(log, max)
    ensures var after := Retire(max, r, n);
            RingValid(max, after) && Ordered(after) == LastOf(log + [n], max)
  {
    hide Retire;
    RetireRemembers(max, r, n);
    LastOfLast(log, n, max);
    if max == 0 {
      RetireNothing(r, n);
    }
  }

  lemma RetireNothing(r: Retired, n: nat)
    requires RingValid(0, r) && n < SEQ_SPACE
    ensures Retire(0, r, n) == r
  {
  }

  lemma CompleteLogs(s: System, i: nat)
    requires Valid(s.c) && Remembers(s) && i < |s.c.pending| && s.c.pending[i].active
    ensures Valid(Complete(s, i).c) && Remembers(Complete(s, i))
  {
    CompleteValid(s, i);
    RetireLogs(s.c.config.maxRetired, s.c.retired, s.c.pending[i].number, s.log);
    hide Valid, Retire, RingValid, LastOf;
  }

  lemma ProgressLogs(s: System)
    requires Valid(s.c) && Remembers(s)
    ensures Valid(Progress(s).c) && Remembers(Progress(s))
  {
    hide Valid, Complete, Resolve, Matches, Expired, Ordered, LastOf;
    ProgressValid(s);
    if s.stack != [] {
      match Top(s)
      case Expire(handles) =>
        if handles != [] && Resolve(s.c, handles[0]).Some? {
          CompleteLogs(s.(stack := Rest(s) + [Expire(handles[1..])]), Resolve(s.c, handles[0]).value);
        }
      case FailAll(index) =>
        if index < |s.c.pending| && s.c.pending[index].active {
          CompleteLogs(s.(stack := Rest(s) + [FailAll(index + 1)]), index);
        }
      case Feed(messages, broken) =>
        if messages != [] && Matches(s.c, messages[0].number, messages[0].key).Some? {
          CompleteLogs(s.(stack := Rest(s) + [Feed(messages[1..], broken)]),
                       Matches(s.c, messages[0].number, messages[0].key).value);
        }
      case Callback =>
      case Drain(_) =>
      case Snapshot(_) =>
      case Relink =>
    }
  }

  lemma RequestLogs(s: System, spec: Spec, sends: bool)
    requires Valid(s.c) && Remembers(s)
    ensures var r := Request(s.c, spec, sends).0;
            && RingValid(r.config.maxRetired, r.retired) && r.config == s.c.config
            && Ordered(r.retired) == LastOf(s.log + AbandonedNumber(s.c, spec, sends), r.config.maxRetired)
  {
    hide Retire, LastOf, PendingValid, RingValid, Ordered, AllocateFrom, FreeSlotFrom;
    RingParts(s.c.config.maxRetired, s.c.retired);
    var n := AllocateFrom(s.c.pending, s.c.retired, s.c.nextSeq, 0);
    if AbandonedNumber(s.c, spec, sends) == [] {
      assert s.log + AbandonedNumber(s.c, spec, sends) == s.log;
    } else {
      RetireLogs(s.c.config.maxRetired, s.c.retired, n.value, s.log);
    }
  }

  lemma CancelLogs(s: System, h: Handle)
    requires Valid(s.c) && Remembers(s)
    ensures var r := Cancel(s.c, h);
            && RingValid(r.config.maxRetired, r.retired) && r.config == s.c.config
            && Ordered(r.retired) == LastOf(s.log + CancelledNumber(s.c, h), r.config.maxRetired)
  {
    hide Retire, LastOf, RingValid, Ordered;
    RingParts(s.c.config.maxRetired, s.c.retired);
    match Resolve(s.c, h)
    case None => assert s.log + CancelledNumber(s.c, h) == s.log;
    case Some(i) => RetireLogs(s.c.config.maxRetired, s.c.retired, s.c.pending[i].number, s.log);
  }

  lemma StepLogs(s: System, call: Call)
    requires Valid(s.c) && Possible(s, call) && Remembers(s)
    ensures Valid(Step(s, call).c) && Remembers(Step(s, call))
  {
    hide Valid, Progress, Request, Cancel, AbandonedNumber, CancelledNumber, Ordered, LastOf, RingValid;
    StepValid(s, call);
    match call
    case DoRequest(spec, sends) => RequestLogs(s, spec, sends);
    case DoCancel(handle) => CancelLogs(s, handle);
    case Proceed => ProgressLogs(s);
    case DoDefer =>
    case DoPoll(_) =>
    case DoRebind =>
    case DoBytes(_, _) =>
    case DoDisconnect =>
    case DoDestroy =>
    case Return =>
  }

  lemma {:induction false} AlwaysRemembers(l: Life)
    requires Lawful(l)
    ensures Valid(Now(l).c) && Remembers(Now(l))
  {
    hide Valid, Step, Possible, Remembers;
    match l
    case Born(config) =>
      FreshValid(config);
      BornRemembers(config);
    case Lived(before, call) =>
      AlwaysRemembers(before);
      StepLogs(Now(before), call);
  }

  lemma BornRemembers(config: Config)
    ensures Valid(Fresh(config)) && Remembers(Begin(config))
  {
    FreshValid(config);
  }

  /**
    Late responses are never misattributed: a message under a number that is among the last
    `maxRetired` retired ones completes no request, whatever else it carries.
   */
  lemma LateResponseCompletesNothing(l: Life, n: nat, key: Key)
    requires Lawful(l) && n in LastOf(Now(l).log, Now(l).c.config.maxRetired)
    ensures Matches(Now(l).c, n, key).None?
  {
    hide Now, LastOf, Ordered, Valid, Matches;
    AlwaysRemembers(l);
    LateMatchesNothing(Now(l).c, n, key);
  }

  // --- Destruction --------------------------------------------------------------------------------

  /** The places of the table the destructor has passed. */
  function Passed(s: System): nat {
    if s.phase.Finishing? || s.phase.Dead? || s.stack == [] then |s.c.pending|
    else match s.stack[0]
      case FailAll(index) => Min(index, |s.c.pending|)
      case _ => 0
  }

  /** Behind the destructor only later requests are pending. */
  predicate SweptBehind(s: System) {
    forall k :: 0 <= k < Passed(s) && s.c.pending[k].callback.Some? ==> s.c.pending[k].callback.value >= s.mark
  }

  /** The bottom of the stack is the stage the destructor is in. */
  predicate Staged(s: System) {
    match s.phase
    case Alive => s.mark == 0
    case Draining => s.mark == 0
    case Failing => (s.stack != [] ==> s.stack[0].FailAll?) && SweptBehind(s)
    case Finishing => (if s.stack == [] then s.c.deferred == [] else s.stack[0].Drain?) && SweptBehind(s)
    case Dead => s.stack == [] && s.c.deferred == [] && SweptBehind(s)
  }

  /** Callbacks leave the table, or are those of requests issued since the mark. */
  predicate OnlyLater(before: seq<Entry>, after: seq<Entry>, mark: nat) {
    && |after| == |before|
    && forall k :: 0 <= k < |after| && after[k].callback.Some? ==>
       after[k].callback == before[k].callback || after[k].callback.value >= mark
  }

  lemma SweptStays(s: System, t: System)
    requires SweptBehind(s) && t.mark == s.mark && OnlyLater(s.c.pending, t.c.pending, s.mark) && Passed(t) <= Passed(s)
    ensures SweptBehind(t)
  {
  }

  lemma RequestLater(c: Client, spec: Spec, sends: bool, mark: nat)
    requires Valid(c) && mark <= c.issued
    ensures OnlyLater(c.pending, Request(c, spec, sends).0.pending, mark)
            && c.issued <= Request(c, spec, sends).0.issued
  {
    hide Retire, AllocateFrom, PendingValid, RingValid;
    RingParts(c.config.maxRetired, c.retired);
  }

  lemma CancelLater(c: Client, h: Handle, mark: nat)
    requires Valid(c)
    ensures OnlyLater(c.pending, Cancel(c, h).pending, mark) && c.issued == Cancel(c, h).issued
  {
    hide Retire, PendingValid, RingValid;
    RingParts(c.config.maxRetired, c.retired);
  }

  /** Completing entry `i` empties its place, and what runs next runs above the frame at the bottom. */
  lemma CompleteLater(s: System, i: nat)
    requires Valid(s.c) && i < |s.c.pending| && s.c.pending[i].active
    ensures var t := Complete(s, i);
            && OnlyLater(s.c.pending, t.c.pending, s.mark) && t.c.pending[i].callback.None?
            && t.c.issued == s.c.issued && t.c.deferred == s.c.deferred && t.phase == s.phase && t.mark == s.mark
            && s.stack <= t.stack
  {
    hide Retire, PendingValid, RingValid;
    RingParts(s.c.config.maxRetired, s.c.retired);
  }

  /** The bottom frame stays while anything runs above it. */
  predicate SameBottom(s: System, t: System) {
    s.stack != [] && t.stack != [] && t.stack[0] == s.stack[0] && t.phase == s.phase && t.mark == s.mark
  }

  lemma StagedAbove(s: System, t: System)
    requires Staged(s) && SameBottom(s, t) && !s.phase.Dead? && OnlyLater(s.c.pending, t.c.pending, s.mark)
    ensures Staged(t)
  {
    hide OnlyLater, SweptBehind;
    if s.phase.Failing? || s.phase.Finishing? {
      assert Passed(t) <= Passed(s) by { PassedAlike(s, t); }
      SweptStays(s, t);
    }
  }

  lemma PassedAlike(s: System, t: System)
    requires SameBottom(s, t) && OnlyLater(s.c.pending, t.c.pending, s.mark)
    ensures Passed(t) == Passed(s)
  {
  }

  lemma Unchanged(pending: seq<Entry>, mark: nat)
    ensures OnlyLater(pending, pending, mark)
  {
  }

  /** Progress above the bottom frame keeps it. */
  lemma ProgressAbove(s: System)
    requires Valid(s.c) && |s.stack| > 1
    ensures var t := Progress(s);
            SameBottom(s, t) && OnlyLater(s.c.pending, t.c.pending, s.mark) && t.c.issued == s.c.issued
  {
    hide Valid, Complete, Resolve, Matches, Expired, OnlyLater;
    Unchanged(s.c.pending, s.mark);
    match Top(s)
    case Expire(handles) =>
      if handles != [] && Resolve(s.c, handles[0]).Some? {
        CompleteLater(s.(stack := Rest(s) + [Expire(handles[1..])]), Resolve(s.c, handles[0]).value);
      }
    case FailAll(index) =>
      if index < |s.c.pending| && s.c.pending[index].active {
        CompleteLater(s.(stack := Rest(s) + [FailAll(index + 1)]), index);
      }
    case Feed(messages, broken) =>
      if messages != [] && Matches(s.c, messages[0].number, messages[0].key).Some? {
        CompleteLater(s.(stack := Rest(s) + [Feed(messages[1..], broken)]),
                      Matches(s.c, messages[0].number, messages[0].key).value);
      }
    case Callback =>
    case Drain(_) =>
    case Snapshot(_) =>
    case Relink =>
  }

  /** The destructor's sweep: one place further, and nothing earlier is left behind. */
  lemma SweepStep(s: System, index: nat)
    requires Valid(s.c) && Staged(s) && s.phase.Failing? && s.stack == [FailAll(index)]
    ensures Staged(FailStep(s, index)) && FailStep(s, index).c.issued == s.c.issued && FailStep(s, index).mark == s.mark
  {
    hide RingValid;
    if index < |s.c.pending| {
      var t := s.(stack := Rest(s) + [FailAll(index + 1)]);
      if s.c.pending[index].active {
        CompleteLater(t, index);
        hide Complete;
        var u := Complete(t, index);
        assert u.stack[0] == t.stack[0];
      }
    }
  }

  lemma FinalDrainStep(s: System, batch: seq<Work>)
    requires Staged(s) && s.phase.Finishing? && s.stack == [Drain(batch)]
    ensures Staged(DrainStep(s, batch)) && DrainStep(s, batch).c.issued == s.c.issued
            && DrainStep(s, batch).mark == s.mark
  {
  }

  lemma ProgressStaged(s: System)
    requires Valid(s.c) && Staged(s) && s.mark <= s.c.issued && Possible(s, Proceed)
    ensures Staged(Progress(s)) && Progress(s).mark <= Progress(s).c.issued
  {
    hide Valid, Complete, Resolve, Matches, Expired, SweptBehind;
    if s.stack == [] {
      ShutdownStaged(s);
    } else if |s.stack| > 1 {
      ProgressAbove(s);
      hide Progress;
      StagedAbove(s, Progress(s));
    } else if s.phase.Failing? {
      SweepStep(s, s.stack[0].index);
    } else if s.phase.Finishing? {
      FinalDrainStep(s, s.stack[0].batch);
    } else {
      ProgressEarly(s);
    }
  }

  lemma ShutdownStaged(s: System)
    requires Staged(s) && s.stack == [] && s.mark <= s.c.issued && !s.phase.Alive? && !s.phase.Dead?
    ensures Staged(ShutdownStep(s)) && ShutdownStep(s).mark <= s.c.issued
  {
  }

  lemma ProgressEarly(s: System)
    requires Valid(s.c) && Staged(s) && (s.phase.Alive? || s.phase.Draining?) && s.stack != []
    ensures Staged(Progress(s)) && Progress(s).mark == 0
  {
    hide Valid, Resolve, Matches, Expired, Detach;
  }

  lemma StepStaged(s: System, call: Call)
    requires Valid(s.c) && Possible(s, call) && Staged(s) && s.mark <= s.c.issued
    ensures Staged(Step(s, call)) && Step(s, call).mark <= Step(s, call).c.issued
  {
    hide Valid, Progress, Request, Cancel, AbandonedNumber, CancelledNumber, OnlyLater, SweptBehind;
    Unchanged(s.c.pending, s.mark);
    match call
    case DoRequest(spec, sends) =>
      RequestLater(s.c, spec, sends, s.mark);
      if s.stack != [] { StagedAbove(s, Step(s, call)); }
    case DoCancel(handle) =>
      CancelLater(s.c, handle, s.mark);
      if s.stack != [] { StagedAbove(s, Step(s, call)); }
    case DoDefer => if s.stack != [] { StagedAbove(s, Step(s, call)); }
    case DoPoll(_) => if s.stack != [] { StagedAbove(s, Step(s, call)); }
    case DoRebind => if s.stack != [] { StagedAbove(s, Step(s, call)); }
    case Return => if |s.stack| > 1 { StagedAbove(s, Step(s, call)); }
    case Proceed => ProgressStaged(s);
    case DoBytes(_, _) => if s.stack != [] { StagedAbove(s, Step(s, call)); }
    case DoDisconnect => if s.stack != [] { StagedAbove(s, Step(s, call)); }
    case DoDestroy =>
  }

  lemma {:induction false} AlwaysStaged(l: Life)
    requires Lawful(l)
    ensures Staged(Now(l)) && Now(l).mark <= Now(l).c.issued
  {
    hide Valid, Step, Possible, Staged;
    match l
    case Born(config) => assert Staged(Begin(config)) by { BornStaged(config); }
    case Lived(before, call) =>
      AlwaysStaged(before);
      StepStaged(Now(before), call);
  }

  lemma BornStaged(config: Config)
    ensures Staged(Begin(config))
  {
  }

  /**
    Destruction delivers: once the destructor is done, every request issued before it began to fail the
    table has been delivered, exactly once. What is left undelivered was issued by a callback the
    destructor itself ran from then on.
   */
  lemma DestructionDelivers(l: Life, id: nat)
    requires Lawful(l) && Now(l).phase.Dead? && id < Now(l).mark
    ensures Delivered(Now(l), id) == 1
  {
    AlwaysStaged(l);
    ExactlyOnePlace(l, id);
    hide Now, Lawful;
    var s := Now(l);
    assert forall k :: 0 <= k < |s.c.pending| ==> Callbacks(s.c.pending)[k] != Some(id);
    assert Some(id) !in Callbacks(s.c.pending);
  }

  /** In particular everything is delivered if the destructor's callbacks issue no further request. */
  lemma QuietDestructionDeliversAll(l: Life, id: nat)
    requires Lawful(l) && Now(l).phase.Dead? && Now(l).c.issued == Now(l).mark && id < Now(l).c.issued
    ensures Delivered(Now(l), id) == 1
  {
    hide Now, Delivered;
    DestructionDelivers(l, id);
  }

  /** A table of one place, no memory of retired numbers, and a request with a callback. */
  const TINY := Config(1, 0, 0)
  const WANTED := Spec(Key(0, 0, 0), 0, 0, true)

  /** One more step of a life. */
  lemma Follow(l: Life, call: Call, t: System)
    requires Lawful(l) && Valid(Now(l).c) && Possible(Now(l), call) && Step(Now(l), call) == t
    ensures Lawful(Lived(l, call)) && Now(Lived(l, call)) == t
  {
    hide Step, Possible, Valid;
  }

  /** The tiny client with one place of the table taken by callback `id` under number `n`, and the queue empty. */
  function Holding(n: nat, id: nat): Client {
    Fresh(TINY).(pending := [Entry(true, n + 1, n, Key(0, 0, 0), 0, Some(id))], nextSeq := n + 1,
                 nextGeneration := n + 2, issued := id + 1)
  }

  lemma TinyRequest(c: Client, n: nat)
    requires c.config == TINY && c.connected && n < 2 && c.nextSeq == n && c.nextGeneration == n + 1
             && c.issued == n && c.deferred == []
    requires c.retired == Fresh(TINY).retired && |c.pending| == 1 && !c.pending[0].active && c.pending[0].callback.None?
    ensures Valid(c) && Request(c, WANTED, true).0 == Holding(n, n)
  {
    assert Usable(c.pending, c.retired, Candidate(n, 0));
    assert Request(c, WANTED, true).0.pending == Holding(n, n).pending;
  }

  lemma TinyDetach(c: Client)
    requires c == Holding(0, 0)
    ensures Valid(c) && Detach(c, 0).retired == Fresh(TINY).retired
            && Detach(c, 0) == c.(pending := [c.pending[0].(active := false, callback := None)])
  {
    assert c.pending[0 := c.pending[0].(active := false, callback := None)]
        == [c.pending[0].(active := false, callback := None)];
  }

  /** The destructor reaches the one pending request and runs its callback. */
  lemma SweepReaches(l1: Life) returns (l5: Life)
    requires Lawful(l1) && Now(l1) == System(Holding(0, 0), [], Alive, [], [], 0)
    ensures Lawful(l5) && Now(l5) == System(Detach(Holding(0, 0), 0), [FailAll(1), Callback], Failing, [0], [0], 1)
  {
    hide Now, Lawful, Detach, Valid;
    var c := Holding(0, 0);
    TinyDetach(c);
    Follow(l1, DoDestroy, System(c, [Drain([])], Draining, [], [], 0));
    var l2 := Lived(l1, DoDestroy);
    Follow(l2, Proceed, System(c, [], Draining, [], [], 0));
    var l3 := Lived(l2, Proceed);
    Follow(l3, Proceed, System(c, [FailAll(0)], Failing, [], [], 1));
    var l4 := Lived(l3, Proceed);
    Follow(l4, Proceed, System(Detach(c, 0), [FailAll(1), Callback], Failing, [0], [0], 1));
    l5 := Lived(l4, Proceed);
  }

  /** A request made then sits where the sweep has already been, and the destructor ends without it. */
  lemma SweepMisses(l6: Life) returns (l11: Life)
    requires Lawful(l6) && Now(l6) == System(Holding(1, 1), [FailAll(1), Callback], Failing, [0], [0], 1)
             && Valid(Holding(1, 1))
    ensures Lawful(l11) && Now(l11) == System(Holding(1, 1), [], Dead, [0], [0], 1)
  {
    hide Now, Lawful, Valid;
    var c := Holding(1, 1);
    Follow(l6, Return, System(c, [FailAll(1)], Failing, [0], [0], 1));
    var l7 := Lived(l6, Return);
    Follow(l7, Proceed, System(c, [], Failing, [0], [0], 1));
    var l8 := Lived(l7, Proceed);
    Follow(l8, Proceed, System(c, [Drain([])], Finishing, [0], [0], 1));
    var l9 := Lived(l8, Proceed);
    Follow(l9, Proceed, System(c, [], Finishing, [0], [0], 1));
    var l10 := Lived(l9, Proceed);
    Follow(l10, Proceed, System(c, [], Dead, [0], [0], 1));
    l11 := Lived(l10, Proceed);
  }

  /**
    A request issued by a callback that the destructor's sweep runs may never complete: here the second one
    does not.
   */
  lemma LateRequestIsLost()
    ensures exists l: Life :: Lawful(l) && Now(l).phase.Dead? && Now(l).c.issued == 2 && Delivered(Now(l), 1) == 0
  {
    hide Step, Now, Lawful, Valid, Detach, Request, Fresh;
    var l1 := FirstIssued();
    var l5 := SweepReaches(l1);
    TinyDetach(Holding(0, 0));
    SecondIssued(l5);
    var l11 := SweepMisses(Lived(l5, DoRequest(WANTED, true)));
    assert Lawful(l11) && Now(l11).phase.Dead? && Now(l11).c.issued == 2 && Delivered(Now(l11), 1) == 0;
  }

  lemma FirstIssued() returns (l: Life)
    ensures Lawful(l) && Now(l) == System(Holding(0, 0), [], Alive, [], [], 0)
  {
    var c := Fresh(TINY);
    FreshValid(TINY);
    TinyRequest(c, 0);
    hide Request, Valid, Fresh, Holding;
    l := Born(TINY);
    assert Lawful(l) && Now(l) == System(c, [], Alive, [], [], 0);
    hide Now, Lawful;
    Follow(l, DoRequest(WANTED, true), System(Holding(0, 0), [], Alive, [], [], 0));
    l := Lived(l, DoRequest(WANTED, true));
  }

  /** The callback the sweep runs issues a second request. */
  lemma SecondIssued(l: Life)
    requires Lawful(l)
    requires Valid(Holding(0, 0))
    requires Now(l) == System(Detach(Holding(0, 0), 0), [FailAll(1), Callback], Failing, [0], [0], 1)
    ensures var m := Lived(l, DoRequest(WANTED, true));
            && Lawful(m) && Now(m) == System(Holding(1, 1), [FailAll(1), Callback], Failing, [0], [0], 1)
            && Valid(Holding(1, 1))
  {
    TinyDetach(Holding(0, 0));
    var freed := Detach(Holding(0, 0), 0);
    TinyRequest(freed, 1);
    RequestValid(freed, WANTED, true);
    hide Detach, Request, Valid, Fresh, Holding, Now, Lawful;
    Follow(l, DoRequest(WANTED, true), System(Holding(1, 1), [FailAll(1), Callback], Failing, [0], [0], 1));
  }
}
