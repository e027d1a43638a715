/**
  The request table of the SMP client: pending requests under generation-tagged handles, 8-bit sequence
  numbers, and the bounded ring of recently retired numbers. Calls into the application are not made
  here; SmpRuns.dfy interleaves them.
 */
module SmpClient {
  import opened Common

  const SEQ_SPACE := 256

  datatype Config = Config(maxInFlight: nat, maxRetired: nat, maxPayload: nat)

  /** What a response must carry, besides the sequence number, to answer a request. */
  datatype Key = Key(group: nat, command: nat, op: nat)

  /** One place of the pending table. A request's callback is known by the number it was issued under. */
  datatype Entry = Entry(active: bool, generation: nat, number: nat, key: Key, deadline: int, callback: Option<nat>)

  /** Generation zero is never issued. */
  datatype Handle = Handle(slot: nat, generation: nat)

  const NO_HANDLE := Handle(0, 0)

  /** The retired numbers, kept both as 256 flags and as a ring of limited length. */
  datatype Retired = Retired(flags: seq<bool>, ring: seq<nat>, head: nat)

  /** Something put off: a callback still to be called, or a task the application queued. */
  datatype Work = Completion(id: nat) | Task

  /** `issued` counts the requests issued with a callback. */
  datatype Client = Client(
    config: Config, pending: seq<Entry>, deferred: seq<Work>, retired: Retired,
    nextSeq: nat, nextGeneration: nat, connected: bool, issued: nat)

  const EMPTY := Entry(false, 0, 0, Key(0, 0, 0), 0, None)

  function Slots(config: Config): nat {
    Max(1, config.maxInFlight)
  }

  function Fresh(config: Config): Client {
    Client(config, seq(Slots(config), k => EMPTY), [], Retired(seq(SEQ_SPACE, k => false), [], 0), 0, 1, true, 0)
  }

  // --- Sequence numbers ---------------------------------------------------------------------------

  /** The flags and the ring are in step. */
  predicate RingValid(max: nat, r: Retired) {
    && |r.flags| == SEQ_SPACE && |r.ring| <= max
    && (if |r.ring| == max && max > 0 then r.head < max else r.head == 0)
    && (forall k :: 0 <= k < |r.ring| ==> r.ring[k] < SEQ_SPACE && r.flags[r.ring[k]])
    && (forall j, k :: 0 <= j < k < |r.ring| ==> r.ring[j] != r.ring[k])
    && (forall n :: 0 <= n < SEQ_SPACE && r.flags[n] ==> n in r.ring)
  }

  function Retire(max: nat, r: Retired, n: nat): Retired
    requires |r.flags| == SEQ_SPACE && n < SEQ_SPACE && (forall k :: 0 <= k < |r.ring| ==> r.ring[k] < SEQ_SPACE)
    requires |r.ring| == max && max > 0 ==> r.head < max
  {
    if max == 0 || r.flags[n] then r
    else if |r.ring| == max then
      Retired(r.flags[r.ring[r.head] := false][n := true], r.ring[r.head := n], (r.head + 1) % max)
    else Retired(r.flags[n := true], r.ring + [n], r.head)
  }

  /** The first active entry under sequence number `n`. */
  function FindBySeq(pending: seq<Entry>, n: nat): (r: Option<nat>)
    ensures r.Some? ==> r.value < |pending| && pending[r.value].active && pending[r.value].number == n
    ensures r.None? ==> forall k :: 0 <= k < |pending| && pending[k].active ==> pending[k].number != n
  {
    FindSeqFrom(pending, n, 0)
  }

  function FindSeqFrom(pending: seq<Entry>, n: nat, from: nat): (r: Option<nat>)
    requires from <= |pending|
    ensures r.Some? ==> from <= r.value < |pending| && pending[r.value].active && pending[r.value].number == n
    ensures r.None? ==> forall k :: from <= k < |pending| && pending[k].active ==> pending[k].number != n
    decreases |pending| - from
  {
    if from == |pending| then None
    else if pending[from].active && pending[from].number == n then Some(from)
    else FindSeqFrom(pending, n, from + 1)
  }

  predicate Usable(pending: seq<Entry>, r: Retired, n: nat)
    requires |r.flags| == SEQ_SPACE && n < SEQ_SPACE
  {
    FindBySeq(pending, n).None? && !r.flags[n]
  }

  /** The numbers are tried in turn from `next`. */
  function Candidate(next: nat, attempt: nat): (n: nat)
    ensures n < SEQ_SPACE
  {
    (next + attempt) % SEQ_SPACE
  }

  /** The first usable number after `attempt` refused ones. */
  function AllocateFrom(pending: seq<Entry>, r: Retired, next: nat, attempt: nat): (n: Option<nat>)
    requires |r.flags| == SEQ_SPACE && attempt <= SEQ_SPACE
    ensures n.Some? ==> n.value < SEQ_SPACE && Usable(pending, r, n.value)
    ensures n.None? ==> forall k :: attempt <= k < SEQ_SPACE ==> !Usable(pending, r, Candidate(next, k))
    decreases SEQ_SPACE - attempt
  {
    if attempt == SEQ_SPACE then None
    else if Usable(pending, r, Candidate(next, attempt)) then Some(Candidate(next, attempt))
    else AllocateFrom(pending, r, next, attempt + 1)
  }

  function FreeSlotFrom(pending: seq<Entry>, from: nat): (r: Option<nat>)
    requires from <= |pending|
    ensures r.Some? ==> from <= r.value < |pending| && !pending[r.value].active
    ensures r.None? ==> forall k :: from <= k < |pending| ==> pending[k].active
    decreases |pending| - from
  {
    if from == |pending| then None
    else if !pending[from].active then Some(from)
    else FreeSlotFrom(pending, from + 1)
  }

  // --- Invariant ---------------------------------------------------------------------------------

  predicate DistinctSeqs(pending: seq<Entry>) {
    forall j, k :: 0 <= j < k < |pending| && pending[j].active && pending[k].active ==>
        pending[j].number != pending[k].number
  }

  predicate PendingValid(pending: seq<Entry>, r: Retired, nextGeneration: nat)
    requires |r.flags| == SEQ_SPACE
  {
    && (forall k :: 0 <= k < |pending| && pending[k].active ==>
         pending[k].number < SEQ_SPACE && !r.flags[pending[k].number] && 0 < pending[k].generation < nextGeneration)
    && (forall k :: 0 <= k < |pending| && !pending[k].active ==> pending[k].callback.None?)
    && DistinctSeqs(pending)
  }

  /** Pending numbers are distinct from each other and from the retired ones. */
  predicate Valid(c: Client) {
    && |c.pending| == Slots(c.config)
    && RingValid(c.config.maxRetired, c.retired)
    && PendingValid(c.pending, c.retired, c.nextGeneration)
    && c.nextSeq < SEQ_SPACE && c.nextGeneration > 0
  }

  // --- Operations --------------------------------------------------------------------------------

  /** Queues a completion, if anyone waits for it. */
  function Owe(c: Client, callback: Option<nat>): Client {
    if callback.None? then c else c.(deferred := c.deferred + [Completion(callback.value)])
  }

  /** Takes entry `i` out of the table; its number is retired. */
  function Detach(c: Client, i: nat): Client
    requires Valid(c) && i < |c.pending| && c.pending[i].active
  {
    c.(pending := c.pending[i := c.pending[i].(active := false, callback := None)],
       retired := Retire(c.config.maxRetired, c.retired, c.pending[i].number))
  }

  /** A request: what its answer must carry, its size and deadline, and whether a callback came with it. */
  datatype Spec = Spec(answer: Key, size: nat, deadline: int, wanted: bool)

  /** The client once the request has been counted. */
  function Counted(c: Client, spec: Spec): Client {
    if spec.wanted then c.(issued := c.issued + 1) else c
  }

  function CallbackOf(c: Client, spec: Spec): Option<nat> {
    if spec.wanted then Some(c.issued) else None
  }

  function Request(c: Client, spec: Spec, sends: bool): (Client, Handle)
    requires Valid(c)
  {
    var callback := CallbackOf(c, spec);
    var counted := Counted(c, spec);
    var slot := FreeSlotFrom(c.pending, 0);
    var n := AllocateFrom(c.pending, c.retired, c.nextSeq, 0);
    if Unsendable(c, spec) then (Owe(counted, callback), NO_HANDLE)
    else
      var numbered := counted.(nextSeq := (n.value + 1) % SEQ_SPACE);
      if !sends then (Owe(numbered.(retired := Retire(c.config.maxRetired, c.retired, n.value)), callback), NO_HANDLE)
      else
        var entry := Entry(true, c.nextGeneration, n.value, spec.answer, spec.deadline, callback);
        (numbered.(pending := c.pending[slot.value := entry], nextGeneration := c.nextGeneration + 1),
         Handle(slot.value, c.nextGeneration))
  }

  /** A request that cannot be sent at all: no link, too large, no place or no number. */
  predicate Unsendable(c: Client, spec: Spec)
    requires Valid(c)
  {
    !c.connected || spec.size > c.config.maxPayload || FreeSlotFrom(c.pending, 0).None?
    || AllocateFrom(c.pending, c.retired, c.nextSeq, 0).None?
  }

  /** The entry a handle stands for, unless it is stale. */
  function Resolve(c: Client, h: Handle): (r: Option<nat>)
    ensures r.Some? ==> r.value < |c.pending| && c.pending[r.value].active
  {
    if h.generation == 0 || h.slot >= |c.pending| || !c.pending[h.slot].active
        || c.pending[h.slot].generation != h.generation then None
    else Some(h.slot)
  }

  function Cancel(c: Client, h: Handle): Client
    requires Valid(c)
  {
    match Resolve(c, h)
    case None => c
    case Some(i) => Owe(Detach(c, i), c.pending[i].callback)
  }

  /** The entry a message completes, if any: the number must be pending and everything else must match. */
  function Matches(c: Client, n: nat, key: Key): (r: Option<nat>)
    ensures r.Some? ==>
            r.value < |c.pending| && c.pending[r.value].active && c.pending[r.value].number == n
                && c.pending[r.value].key == key
  {
    match FindBySeq(c.pending, n)
    case None => None
    case Some(i) => if c.pending[i].key == key then Some(i) else None
  }

  /** The handles of the requests that have run out of time. */
  function Expired(pending: seq<Entry>, now: int): seq<Handle> {
    if pending == [] then []
    else
      var last := |pending| - 1;
      Expired(pending[..last], now)
      + if pending[last].active && pending[last].deadline <= now then [Handle(last, pending[last].generation)] else []
  }

  // --- Retired numbers ----------------------------------------------------------------------------

  /** The retired numbers, oldest first. */
  function Ordered(r: Retired): seq<nat>
    requires r.head <= |r.ring|
  {
    r.ring[r.head..] + r.ring[..r.head]
  }

  function LastOf(s: seq<nat>, k: nat): seq<nat> {
    if |s| <= k then s else s[|s| - k..]
  }

  /** Retiring a number keeps flags and ring in step; the ring holds the last `max` retired numbers, oldest first. */
  lemma RetireRemembers(max: nat, r: Retired, n: nat)
    requires RingValid(max, r) && n < SEQ_SPACE && !r.flags[n]
    ensures RingValid(max, Retire(max, r, n))
    ensures max > 0 ==> Ordered(Retire(max, r, n)) == LastOf(Ordered(r) + [n], max)
    ensures max > 0 ==> Retire(max, r, n).flags[n]
  {
    if max > 0 {
      if |r.ring| == max {
        RetireEvicts(max, r, n);
      } else {
        RetireAppends(max, r, n);
      }
    }
  }

  lemma RetireAppends(max: nat, r: Retired, n: nat)
    requires RingValid(max, r) && n < SEQ_SPACE && !r.flags[n] && |r.ring| < max
    ensures RingValid(max, Retire(max, r, n)) && Ordered(Retire(max, r, n)) == LastOf(Ordered(r) + [n], max)
  {
    AppendingFlags(r.flags, r.ring, n);
    assert Ordered(r) == r.ring;
    assert Ordered(Retire(max, r, n)) == r.ring + [n];
  }

  /** One more number behind the others keeps the flags in step. */
  lemma AppendingFlags(flags: seq<bool>, ring: seq<nat>, n: nat)
    requires |flags| == SEQ_SPACE && n < SEQ_SPACE && !flags[n]
    requires forall k :: 0 <= k < |ring| ==> ring[k] < SEQ_SPACE && flags[ring[k]]
    requires forall j, k :: 0 <= j < k < |ring| ==> ring[j] != ring[k]
    requires forall m :: 0 <= m < SEQ_SPACE && flags[m] ==> m in ring
    ensures var f, after := flags[n := true], ring + [n];
            && (forall k :: 0 <= k < |after| ==> after[k] < SEQ_SPACE && f[after[k]])
            && (forall j, k :: 0 <= j < k < |after| ==> after[j] != after[k])
            && (forall m :: 0 <= m < SEQ_SPACE && f[m] ==> m in after)
  {
  }

  /** A step round the ring. */
  lemma Wraps(head: nat, max: nat)
    requires head < max
    ensures (head + 1) % max == if head + 1 == max then 0 else head + 1
  {
  }

  /** Replacing the oldest number keeps the others in order. */
  lemma EvictionOrder(ring: seq<nat>, head: nat, n: nat)
    requires head < |ring|
    ensures var next := if head + 1 == |ring| then 0 else head + 1;
            var after := ring[head := n];
            after[next..] + after[..next] == LastOf(ring[head..] + ring[..head] + [n], |ring|)
  {
    var next := if head + 1 == |ring| then 0 else head + 1;
    var after := ring[head := n];
    assert ring[head..] == [ring[head]] + ring[head + 1..];
    if next == 0 {
      assert after == ring[..head] + [n];
    } else {
      assert after[next..] == ring[next..];
      assert after[..next] == ring[..head] + [n];
    }
  }

  /** ... and the flags in step. */
  lemma EvictionFlags(flags: seq<bool>, ring: seq<nat>, head: nat, n: nat)
    requires |flags| == SEQ_SPACE && head < |ring| && n < SEQ_SPACE && !flags[n]
    requires forall k :: 0 <= k < |ring| ==> ring[k] < SEQ_SPACE && flags[ring[k]]
    requires forall j, k :: 0 <= j < k < |ring| ==> ring[j] != ring[k]
    requires forall m :: 0 <= m < SEQ_SPACE && flags[m] ==> m in ring
    ensures var f, after := flags[ring[head] := false][n := true], ring[head := n];
            && (forall k :: 0 <= k < |after| ==> after[k] < SEQ_SPACE && f[after[k]])
            && (forall j, k :: 0 <= j < k < |after| ==> after[j] != after[k])
            && (forall m :: 0 <= m < SEQ_SPACE && f[m] ==> m in after)
  {
    var f, after := flags[ring[head] := false][n := true], ring[head := n];
    forall m | 0 <= m < SEQ_SPACE && f[m]
      ensures m in after
    {
      if m == n {
        assert after[head] == n;
      } else {
        var k :| 0 <= k < |ring| && ring[k] == m;
        assert after[k] == m;
      }
    }
  }

  lemma RetireEvicts(max: nat, r: Retired, n: nat)
    requires RingValid(max, r) && n < SEQ_SPACE && !r.flags[n] && |r.ring| == max > 0
    ensures RingValid(max, Retire(max, r, n)) && Ordered(Retire(max, r, n)) == LastOf(Ordered(r) + [n], max)
  {
    hide LastOf;
    Wraps(r.head, max);
    EvictionOrder(r.ring, r.head, n);
    EvictionFlags(r.flags, r.ring, r.head, n);
  }

  // --- Every operation keeps the client valid -----------------------------------------------------

  lemma RetireFlags(max: nat, r: Retired, n: nat)
    requires RingValid(max, r) && n < SEQ_SPACE
    ensures var after := Retire(max, r, n);
            |after.flags| == SEQ_SPACE && forall m :: 0 <= m < SEQ_SPACE && m != n && after.flags[m] ==> r.flags[m]
  {
  }

  lemma FreshValid(config: Config)
    ensures Valid(Fresh(config))
  {
  }

  lemma DetachValid(c: Client, i: nat)
    requires Valid(c) && i < |c.pending| && c.pending[i].active
    ensures Valid(Detach(c, i))
  {
    hide Retire, RingValid;
    RingParts(c.config.maxRetired, c.retired);
    RetireRemembers(c.config.maxRetired, c.retired, c.pending[i].number);
    RetireFlags(c.config.maxRetired, c.retired, c.pending[i].number);
  }

  lemma RingParts(max: nat, r: Retired)
    requires RingValid(max, r)
    ensures |r.flags| == SEQ_SPACE && r.head <= |r.ring| && forall k :: 0 <= k < |r.ring| ==> r.ring[k] < SEQ_SPACE
    ensures |r.ring| == max && max > 0 ==> r.head < max
  {
  }

  /** A number just allocated is neither pending nor retired, so a request under it keeps all numbers apart. */
  lemma IssueValid(c: Client, slot: nat, entry: Entry)
    requires Valid(c) && slot < |c.pending| && !c.pending[slot].active && entry.active
    requires entry.number < SEQ_SPACE && Usable(c.pending, c.retired, entry.number)
             && entry.generation == c.nextGeneration
    ensures PendingValid(c.pending[slot := entry], c.retired, c.nextGeneration + 1)
  {
    hide RingValid;
  }

  /** A number retired without ever being pending leaves the pending ones alone. */
  lemma AbandonValid(c: Client, n: nat)
    requires Valid(c) && n < SEQ_SPACE && Usable(c.pending, c.retired, n)
    ensures var r := Retire(c.config.maxRetired, c.retired, n);
            RingValid(c.config.maxRetired, r) && PendingValid(c.pending, r, c.nextGeneration)
  {
    hide Retire, RingValid;
    RingParts(c.config.maxRetired, c.retired);
    RetireRemembers(c.config.maxRetired, c.retired, n);
    RetireFlags(c.config.maxRetired, c.retired, n);
  }

  lemma RequestValid(c: Client, spec: Spec, sends: bool)
    requires Valid(c)
    ensures Valid(Request(c, spec, sends).0)
  {
    hide RingValid, PendingValid, Usable, Retire;
    RingParts(c.config.maxRetired, c.retired);
    var slot := FreeSlotFrom(c.pending, 0);
    var n := AllocateFrom(c.pending, c.retired, c.nextSeq, 0);
    if c.connected && spec.size <= c.config.maxPayload && slot.Some? && n.Some? {
      if sends {
        IssueValid(c, slot.value, Entry(true, c.nextGeneration, n.value, spec.answer, spec.deadline,
                                        CallbackOf(c, spec)));
      } else {
        AbandonValid(c, n.value);
      }
    }
  }

  lemma CancelValid(c: Client, h: Handle)
    requires Valid(c)
    ensures Valid(Cancel(c, h))
  {
    hide RingValid, PendingValid, Detach;
    if Resolve(c, h).Some? {
      DetachValid(c, Resolve(c, h).value);
    }
  }

  // --- Allocation never fails in a sane configuration ---------------------------------------------

  /** The numbers of the first `n` entries that are in use. */
  function NumbersIn(pending: seq<Entry>, n: nat): (r: set<nat>)
    requires n <= |pending|
    ensures |r| <= n
    ensures forall k :: 0 <= k < n && pending[k].active ==> pending[k].number in r
    ensures forall k :: 0 <= k < n && !pending[k].active ==> |r| < n
  {
    if n == 0 then {}
    else if pending[n - 1].active then NumbersIn(pending, n - 1) + {pending[n - 1].number}
    else NumbersIn(pending, n - 1)
  }

  function ElementsOf(s: seq<nat>): (r: set<nat>)
    ensures |r| <= |s| && forall n :: n in s ==> n in r
  {
    if s == [] then {} else ElementsOf(s[..|s| - 1]) + {s[|s| - 1]}
  }

  function Below(n: nat): (r: set<nat>)
    ensures |r| == n && forall m :: m in r <==> 0 <= m < n
  {
    if n == 0 then {} else Below(n - 1) + {n - 1}
  }

  lemma SubsetSize(a: set<nat>, b: set<nat>)
    requires a <= b
    ensures |a| <= |b|
  {
    assert b == a + (b - a);
  }

  /** Every number is tried. */
  lemma EveryNumberTried(next: nat, m: nat)
    requires next < SEQ_SPACE && m < SEQ_SPACE
    ensures exists k :: 0 <= k < SEQ_SPACE && Candidate(next, k) == m
  {
    var k := if m >= next then m - next else m + SEQ_SPACE - next;
    assert Candidate(next, k) == m;
  }

  /** With a free place in the table and room for both, some number is neither pending nor retired. */
  lemma AllocationSucceeds(c: Client)
    requires Valid(c) && FreeSlotFrom(c.pending, 0).Some?
    requires Slots(c.config) + c.config.maxRetired <= SEQ_SPACE
    ensures AllocateFrom(c.pending, c.retired, c.nextSeq, 0).Some?
  {
    if AllocateFrom(c.pending, c.retired, c.nextSeq, 0).None? {
      var pending, ring := NumbersIn(c.pending, |c.pending|), ElementsOf(c.retired.ring);
      forall m | m in Below(SEQ_SPACE)
        ensures m in pending + ring
      {
        EveryNumberTried(c.nextSeq, m);
        assert !Usable(c.pending, c.retired, m);
      }
      SubsetSize(Below(SEQ_SPACE), pending + ring);
    }
  }

  /** So a request on a live link whose payload fits and that finds a free place is sent under a number of its own. */
  lemma RequestGoesOut(c: Client, spec: Spec)
    requires Valid(c) && FreeSlotFrom(c.pending, 0).Some? && c.connected && spec.size <= c.config.maxPayload
    requires Slots(c.config) + c.config.maxRetired <= SEQ_SPACE
    ensures var r := Request(c, spec, true);
            Resolve(r.0, r.1).Some? && r.0.deferred == c.deferred && r.0.retired == c.retired
  {
    AllocationSucceeds(c);
  }

  // --- A late answer completes nothing ------------------------------------------------------------

  /** A message under a number among the last `maxRetired` retired ones matches no request. */
  lemma LateMatchesNothing(c: Client, n: nat, key: Key)
    requires Valid(c) && n in Ordered(c.retired)
    ensures Matches(c, n, key).None?
  {
  }
}
