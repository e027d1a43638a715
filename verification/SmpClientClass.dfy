/** The request table as an object that changes in place, proved against the operations in SmpClient. */
module SmpClientClass {
  import opened Common
  import S = SmpClient

  class Table {
    const config: S.Config
    const flags: array<bool>
    var pending: seq<S.Entry>
    var deferred: seq<S.Work>
    var ring: seq<nat>
    var head: nat
    var nextSeq: nat
    var nextGeneration: nat
    var connected: bool
    var issued: nat

    ghost function Value(): S.Client
      reads this, flags
    {
      S.Client(config, pending, deferred, S.Retired(flags[..], ring, head), nextSeq, nextGeneration, connected, issued)
    }

    ghost predicate Valid()
      reads this, flags
    {
      flags.Length == S.SEQ_SPACE && S.Valid(Value())
    }

    constructor (config: S.Config)
      ensures Valid() && Value() == S.Fresh(config) && fresh(flags)
    {
      this.config := config;
      flags := new bool[S.SEQ_SPACE](k => false);
      pending := seq(S.Slots(config), k => S.EMPTY);
      deferred, ring, head := [], [], 0;
      nextSeq, nextGeneration, connected, issued := 0, 1, true, 0;
      new;
      assert flags[..] == S.Fresh(config).retired.flags;
      S.FreshValid(config);
    }

    method FindBySeq(number: nat) returns (r: Option<nat>)
      ensures r == S.FindBySeq(pending, number)
    {
      var i := 0;
      while i < |pending|
        invariant i <= |pending|
        invariant S.FindSeqFrom(pending, number, i) == S.FindSeqFrom(pending, number, 0)
      {
        if pending[i].active && pending[i].number == number {
          return Some(i);
        }
        i := i + 1;
      }
      return None;
    }

    method FreeSlot() returns (r: Option<nat>)
      ensures r == S.FreeSlotFrom(pending, 0)
    {
      var i := 0;
      while i < |pending|
        invariant i <= |pending|
        invariant S.FreeSlotFrom(pending, i) == S.FreeSlotFrom(pending, 0)
      {
        if !pending[i].active {
          return Some(i);
        }
        i := i + 1;
      }
      return None;
    }

    /** Remembers a number as retired, forgetting the oldest one if the ring is full. */
    method Retire(number: nat)
      requires flags.Length == S.SEQ_SPACE && S.RingValid(config.maxRetired, S.Retired(flags[..], ring, head))
               && number < S.SEQ_SPACE
      modifies this`ring, this`head, flags
      ensures Value() == old(Value()).(retired := S.Retire(config.maxRetired, old(Value()).retired, number))
    {
      if config.maxRetired == 0 || flags[number] {
        return;
      }
      if |ring| == config.maxRetired {
        flags[ring[head]] := false;
        ring := ring[head := number];
        head := (head + 1) % |ring|;
      } else {
        ring := ring + [number];
      }
      flags[number] := true;
    }

    /** Tries the numbers in turn until one is neither pending nor retired. */
    method AllocateSeq() returns (r: Option<nat>)
      requires Valid()
      modifies this`nextSeq
      ensures r == S.AllocateFrom(old(Value()).pending, old(Value()).retired, old(nextSeq), 0)
      ensures nextSeq == if r.Some? then (r.value + 1) % S.SEQ_SPACE else old(nextSeq)
    {
      hide S.Valid, S.Candidate, S.FindBySeq;
      ghost var was := Value();
      var attempt := 0;
      while attempt < S.SEQ_SPACE
        invariant attempt <= S.SEQ_SPACE && nextSeq == was.nextSeq && |flags[..]| == S.SEQ_SPACE
        invariant S.AllocateFrom(pending, was.retired, nextSeq, attempt)
                  == S.AllocateFrom(pending, was.retired, nextSeq, 0)
      {
        var candidate := S.Candidate(nextSeq, attempt);
        var holder := FindBySeq(candidate);
        if holder.None? && !flags[candidate] {
          nextSeq := (candidate + 1) % S.SEQ_SPACE;
          return Some(candidate);
        }
        attempt := attempt + 1;
      }
      return None;
    }

    /** Frees place `i`, retires its number and returns whom to call. */
    method Detach(i: nat) returns (callback: Option<nat>)
      requires Valid() && i < |pending| && pending[i].active
      modifies this`pending, this`ring, this`head, flags
      ensures Valid() && Value() == S.Detach(old(Value()), i) && callback == old(pending)[i].callback
    {
      S.DetachValid(Value(), i);
      hide S.Retire;
      callback := pending[i].callback;
      var number := pending[i].number;
      Retire(number);
      pending := pending[i := pending[i].(active := false, callback := None)];
    }

    method Defer(callback: Option<nat>)
      modifies this`deferred
      ensures Value() == S.Owe(old(Value()), callback)
    {
      if callback.Some? {
        deferred := deferred + [S.Completion(callback.value)];
      }
    }

    /** Counts a request and queues its failure. */
    method DeferNew(spec: S.Spec)
      modifies this`deferred, this`issued
      ensures Value() == S.Owe(S.Counted(old(Value()), spec), S.CallbackOf(old(Value()), spec))
    {
      if spec.wanted {
        deferred := deferred + [S.Completion(issued)];
        issued := issued + 1;
      }
    }

    /** Counts a request and enters it into the table. */
    method Enter(spec: S.Spec, slot: nat, number: nat) returns (handle: S.Handle)
      requires slot < |pending|
      modifies this`pending, this`nextGeneration, this`issued
      ensures handle == S.Handle(slot, old(nextGeneration))
      ensures Value() == S.Counted(old(Value()), spec).(
                pending := old(pending)[slot := S.Entry(true, old(nextGeneration), number, spec.answer,
                                                        spec.deadline, S.CallbackOf(old(Value()), spec))],
                nextGeneration := old(nextGeneration) + 1)
    {
      pending := pending[slot := S.Entry(true, nextGeneration, number, spec.answer, spec.deadline,
                                         if spec.wanted then Some(issued) else None)];
      handle := S.Handle(slot, nextGeneration);
      nextGeneration := nextGeneration + 1;
      issued := if spec.wanted then issued + 1 else issued;
    }

    /** Sends a request for which there is a place, or queues its failure. */
    method Send(spec: S.Spec, slot: nat, sends: bool) returns (handle: S.Handle)
      requires Valid() && connected && spec.size <= config.maxPayload && S.FreeSlotFrom(pending, 0) == Some(slot)
      modifies this, flags
      ensures (Value(), handle) == S.Request(old(Value()), spec, sends)
    {
      hide S.Valid, S.Request, S.Owe, S.Counted, S.CallbackOf, S.AllocateFrom, S.FreeSlotFrom;
      ghost var was := Value();
      RequestCases(was, spec, sends);
      var number := AllocateSeq();
      assert Value() == was.(nextSeq := nextSeq);
      if number.Some? && sends {
        handle := Enter(spec, slot, number.value);
      } else {
        if number.Some? {
          Retire(number.value);
        }
        DeferNew(spec);
        handle := S.NO_HANDLE;
      }
    }

    /** Sends a request, or queues its failure; `sends` is what the transport will answer. */
    method Request(spec: S.Spec, sends: bool) returns (handle: S.Handle)
      requires Valid()
      modifies this, flags
      ensures Valid() && (Value(), handle) == S.Request(old(Value()), spec, sends)
    {
      hide S.Valid, S.Request, S.Owe, S.Counted, S.CallbackOf, S.AllocateFrom, S.FreeSlotFrom;
      S.RequestValid(Value(), spec, sends);
      RequestCases(Value(), spec, sends);
      var slot := FreeSlot();
      if connected && spec.size <= config.maxPayload && slot.Some? {
        handle := Send(spec, slot.value, sends);
      } else {
        DeferNew(spec);
        handle := S.NO_HANDLE;
      }
    }

    method Cancel(handle: S.Handle)
      requires Valid()
      modifies this, flags
      ensures Valid() && Value() == S.Cancel(old(Value()), handle)
    {
      S.CancelValid(Value(), handle);
      hide S.Valid, S.Detach;
      if handle.generation == 0 || handle.slot >= |pending| || !pending[handle.slot].active
          || pending[handle.slot].generation != handle.generation {
        return;
      }
      var callback := Detach(handle.slot);
      Defer(callback);
    }
  }

  /** A request's three ways, each spelled out. */
  lemma RequestCases(c: S.Client, spec: S.Spec, sends: bool)
    requires S.Valid(c)
    ensures S.RingValid(c.config.maxRetired, c.retired)
    ensures var r := S.Request(c, spec, sends);
            if S.Unsendable(c, spec) then r == (S.Owe(S.Counted(c, spec), S.CallbackOf(c, spec)), S.NO_HANDLE)
            else
              var slot, n := S.FreeSlotFrom(c.pending, 0).value,
                  S.AllocateFrom(c.pending, c.retired, c.nextSeq, 0).value;
              var numbered := c.(nextSeq := (n + 1) % S.SEQ_SPACE);
              if sends then
                r == (S.Counted(numbered, spec).(
                        pending := c.pending[slot := S.Entry(true, c.nextGeneration, n, spec.answer, spec.deadline,
                                                             S.CallbackOf(numbered, spec))],
                        nextGeneration := c.nextGeneration + 1), S.Handle(slot, c.nextGeneration))
              else
                var dropped := numbered.(retired := S.Retire(c.config.maxRetired, c.retired, n));
                r == (S.Owe(S.Counted(dropped, spec), S.CallbackOf(dropped, spec)), S.NO_HANDLE)
  {
    hide S.Retire, S.AllocateFrom, S.FreeSlotFrom, S.RingValid, S.PendingValid;
    S.RingParts(c.config.maxRetired, c.retired);
  }
}
