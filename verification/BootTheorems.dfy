/** What the boot model guarantees: reboots lose nothing, and an unconfirmed trial is always undone. */
module BootTheorems {
  import opened Common
  import opened BootModel
  import Tlv

  /** What can happen to a device between two reboots, short of writing its flash. */
  datatype Request = Read | SetStateOf(hash: Option<Hash>, confirm: bool)

  function Perform(d: Device, request: Request): (r: Device)
    requires Valid(d)
    ensures Valid(r) && |r.images| == |d.images| && r.config == d.config
  {
    match request
    case Read => AdvanceApplies(d)
    case SetStateOf(hash, confirm) => SetState(d, hash, confirm).0
  }

  function PerformAll(d: Device, requests: seq<Request>): (r: Device)
    requires Valid(d)
    ensures Valid(r) && |r.images| == |d.images| && r.config == d.config
    decreases |requests|
  {
    if requests == [] then d else PerformAll(Perform(d, requests[0]), requests[1..])
  }

  /** The request is a confirm of `slot` that the device accepts. */
  predicate Confirms(d: Device, request: Request, slot: nat)
    requires Valid(d)
  {
    request.SetStateOf? && request.confirm && Named(d, request.hash, true) == Ok(slot)
        && SetState(d, request.hash, true).1.Accepted?
  }

  predicate NoneConfirms(d: Device, requests: seq<Request>, slot: nat)
    requires Valid(d)
    decreases |requests|
  {
    requests == [] || (!Confirms(d, requests[0], slot) && NoneConfirms(Perform(d, requests[0]), requests[1..], slot))
  }

  // --- Versions ------------------------------------------------------------------------------------

  /** The content is long enough for an image header. */
  predicate HasHeader(content: Content) {
    |content| >= 32
  }

  /** The version in `a` is the lower one: major in octet 20, minor in 21, revision in 22 and 23, low octet first. */
  predicate Lower(a: Content, b: Content)
    requires HasHeader(a) && HasHeader(b)
  {
    var revisionA, revisionB := a[22] as int + 256 * (a[23] as int), b[22] as int + 256 * (b[23] as int);
    || a[20] as int < b[20] as int
    || (a[20] as int == b[20] as int && a[21] as int < b[21] as int)
    || (a[20] as int == b[20] as int && a[21] as int == b[21] as int && revisionA < revisionB)
  }

  lemma LowerExactly(a: Content, b: Content)
    requires HasHeader(a) && HasHeader(b)
    ensures VersionLess(Tlv.VersionAt20(a), Tlv.VersionAt20(b)) <==> Lower(a, b)
  {
  }

  /** The bootloader forbids downgrades, and the pair's secondary is one. */
  predicate Downgrade(config: Config, pair: Pair) {
    config.noDowngrade && HasHeader(pair.primary) && HasHeader(pair.secondary) && Lower(pair.secondary, pair.primary)
  }

  lemma DowngradeExactly(config: Config, pair: Pair)
    ensures RefusesDowngrade(config, pair) <==> Downgrade(config, pair)
  {
    hide Lower, VersionLess;
    if HasHeader(pair.primary) && HasHeader(pair.secondary) {
      LowerExactly(pair.secondary, pair.primary);
    }
  }

  // --- Swapping ------------------------------------------------------------------------------------

  /** A bootloader that swaps and reverts. */
  predicate Reverts(d: Device) {
    Valid(d) && d.config.behaviour.SwapWithRevert?
  }

  /** ... and accepts older images. */
  predicate Swaps(d: Device) {
    Reverts(d) && !d.config.noDowngrade
  }

  /** A pair the client commits. */
  predicate IsClientPair(pair: Pair) {
    pair.device.None? && pair.applying.None? && pair.committing.None?
  }

  /** Whether the next boot exchanges the pair's slots. */
  predicate Exchanges(pair: Pair) {
    pair.swap.Perm? || pair.swap.Revert? || (pair.swap.Test? && pair.device.None?)
  }

  /** A reboot only ever exchanges the two contents of a pair: nothing is lost and nothing appears. */
  lemma RebootPermutes(d: Device, n: nat)
    requires Swaps(d) && n < |d.images|
    ensures var before, after := d.images[n], Reboot(d).images[n];
            && multiset{after.primary, after.secondary} == multiset{before.primary, before.secondary}
            && (if Exchanges(before) then after.primary == before.secondary && after.secondary == before.primary
                else after.primary == before.primary && after.secondary == before.secondary)
            && (after.swap.NoSwap? || (before.swap.Test? && after.swap == if before.device.Some? then Test else Revert))
  {
  }

  /** A device's history: requests and reboots, in any order. */
  datatype Happening = Asked(request: Request) | Rebooted

  function After(d: Device, history: seq<Happening>): (r: Device)
    requires Valid(d)
    ensures Valid(r) && |r.images| == |d.images| && r.config == d.config
    decreases |history|
  {
    if history == [] then d
    else After(match history[0] case Asked(request) => Perform(d, request) case Rebooted => Reboot(d), history[1..])
  }

  function Contents(pair: Pair): multiset<Content> {
    multiset{pair.primary, pair.secondary}
  }

  lemma RequestConserves(d: Device, request: Request, n: nat)
    requires Swaps(d) && n < |d.images|
    ensures Contents(Perform(d, request).images[n]) == Contents(d.images[n])
  {
    hide FindFrom, SetNextBootSlot, AdvanceApplies;
    ReadConserves(d, n);
    if request.SetStateOf? && Named(d, request.hash, request.confirm).Ok? {
      MarkConserves(d, Named(d, request.hash, request.confirm).value, request.confirm, n);
    }
  }

  lemma ReadConserves(d: Device, n: nat)
    requires Valid(d) && n < |d.images|
    ensures Contents(AdvanceApplies(d).images[n]) == Contents(d.images[n])
  {
  }

  lemma MarkConserves(d: Device, global: nat, confirm: bool, n: nat)
    requires n < |d.images| && global < 2 * |d.images|
    ensures Contents(SetNextBootSlot(d, global, confirm).0.images[n]) == Contents(d.images[n])
  {
    hide Rule;
  }

  /** Whatever is asked and however often the device reboots, each pair keeps its two contents. */
  lemma {:induction false} ContentsConserved(d: Device, history: seq<Happening>, n: nat)
    requires Swaps(d) && n < |d.images|
    ensures Contents(After(d, history).images[n]) == Contents(d.images[n])
    decreases |history|
  {
    hide Perform, Reboot;
    if history == [] {
    } else {
      match history[0]
      case Asked(request) =>
        RequestConserves(d, request, n);
        ContentsConserved(Perform(d, request), history[1..], n);
      case Rebooted =>
        RebootPermutes(d, n);
        ContentsConserved(Reboot(d), history[1..], n);
    }
  }

  /** While a client pair is marked or on trial, no request changes it, except a confirm of its active slot. */
  lemma RequestKeepsPair(d: Device, request: Request, n: nat)
    requires Reverts(d) && n < |d.images| && IsClientPair(d.images[n])
    requires d.images[n].swap.Test? || (d.images[n].swap.Revert? && !Confirms(d, request, 2 * n))
    ensures Perform(d, request).images[n] == d.images[n]
  {
    hide FindFrom;
    if request.SetStateOf? {
      var named := Named(d, request.hash, request.confirm);
      if named.Ok? {
        SetNextKeepsPair(d, named.value, request.confirm, n);
      }
    }
  }

  lemma SetNextKeepsPair(d: Device, global: nat, confirm: bool, n: nat)
    requires n < |d.images| && global < 2 * |d.images| && IsClientPair(d.images[n])
    requires d.images[n].swap.Test?
          || (d.images[n].swap.Revert? && !(global == 2 * n && confirm
                                            && SetNextBootSlot(d, global, confirm).1.Accepted?))
    ensures SetNextBootSlot(d, global, confirm).0.images[n] == d.images[n]
  {
    if global / 2 == n && global % 2 == 0 {
      assert global == 2 * n;
    }
  }

  lemma {:induction false} RequestsKeepMark(d: Device, requests: seq<Request>, n: nat)
    requires Reverts(d) && n < |d.images| && IsClientPair(d.images[n]) && d.images[n].swap.Test?
    ensures PerformAll(d, requests).images[n] == d.images[n]
    decreases |requests|
  {
    hide Perform;
    if requests == [] {
    } else {
      RequestKeepsPair(d, requests[0], n);
      RequestsKeepMark(Perform(d, requests[0]), requests[1..], n);
    }
  }

  lemma {:induction false} RequestsKeepTrial(d: Device, requests: seq<Request>, n: nat)
    requires Reverts(d) && n < |d.images| && IsClientPair(d.images[n]) && d.images[n].swap.Revert?
    requires NoneConfirms(d, requests, 2 * n)
    ensures PerformAll(d, requests).images[n] == d.images[n]
    decreases |requests|
  {
    hide Perform, Confirms;
    if requests == [] {
    } else {
      RequestKeepsPair(d, requests[0], n);
      RequestsKeepTrial(Perform(d, requests[0]), requests[1..], n);
    }
  }

  /** The device once `hash` was marked for test. */
  function MarkedFor(d: Device, hash: Hash): Device
    requires Valid(d)
  {
    SetState(d, Some(hash), false).0
  }

  /**
    The revert guarantee: mark a client pair for test, let anything be asked, reboot into the trial,
    let anything be asked except a confirm of its active slot, reboot again: the pair is exactly what
    it was before the mark.
   */
  lemma TrialIsUndone(d: Device, hash: Hash, before: seq<Request>, after: seq<Request>, n: nat)
    requires Reverts(d) && n < |d.images| && IsClientPair(d.images[n]) && d.images[n].swap.NoSwap?
    requires !Downgrade(d.config, d.images[n])
    requires SetState(d, Some(hash), false).1.Accepted? && MarkedFor(d, hash).images[n].swap.Test?
    requires NoneConfirms(Reboot(PerformAll(MarkedFor(d, hash), before)), after, 2 * n)
    ensures var trial := Reboot(PerformAll(MarkedFor(d, hash), before));
            && trial.images[n] == d.images[n].(primary := d.images[n].secondary, secondary := d.images[n].primary,
                                               swap := Revert)
            && Reboot(PerformAll(trial, after)).images[n] == d.images[n]
  {
    MarkSchedules(d, hash, n);
    DowngradeExactly(d.config, d.images[n]);
    hide SetState, NoneConfirms, PerformAll, Downgrade;
    var marked := MarkedFor(d, hash);
    RequestsKeepMark(marked, before, n);
    var trial := Reboot(PerformAll(marked, before));
    RequestsKeepTrial(trial, after, n);
  }

  lemma MarkSchedules(d: Device, hash: Hash, n: nat)
    requires Reverts(d) && n < |d.images| && d.images[n].swap.NoSwap? && MarkedFor(d, hash).images[n].swap.Test?
    ensures MarkedFor(d, hash).images[n] == d.images[n].(swap := Test)
  {
    hide FindFrom;
  }

  /** The partner: a confirm accepted for the active slot of a trial keeps it over every later reboot. */
  lemma ConfirmedTrialStays(d: Device, request: Request, n: nat)
    requires Reverts(d) && n < |d.images| && IsClientPair(d.images[n]) && d.images[n].swap.Revert?
             && Confirms(d, request, 2 * n)
    ensures var kept := Perform(d, request);
            kept.images[n] == d.images[n].(swap := NoSwap) && Reboot(kept).images[n] == kept.images[n]
  {
    hide FindFrom;
  }

  /** The running image's trial can always be confirmed, without a hash or by its own: its slot is searched first. */
  lemma RunningTrialConfirms(d: Device, request: Request)
    requires Reverts(d) && d.images[0].swap.Revert? && request.SetStateOf? && request.confirm
    requires request.hash.None? || Carries(d, 0, request.hash.value)
    ensures Confirms(d, request, 0)
  {
    hide FindFrom, Carries, SetNextBootSlot;
    if request.hash.Some? {
      FindsFirst(d, request.hash.value, 0);
    }
    TrialAccepted(d);
  }

  /** A confirm of the running image's active slot ends its trial. */
  lemma TrialAccepted(d: Device)
    requires Reverts(d) && d.images[0].swap.Revert?
    ensures SetNextBootSlot(d, 0, true).1.Accepted?
  {
  }

  // --- Direct-XIP with revert ---------------------------------------------------------------------

  predicate RunsInPlace(d: Device) {
    Valid(d) && d.config.behaviour.DirectXipWithRevert? && IsClientPair(d.images[0])
  }

  lemma {:induction false} XipRequestsKeepTrial(d: Device, requests: seq<Request>)
    requires RunsInPlace(d) && d.xip.trial && NoneConfirms(d, requests, d.xip.active)
    ensures var r := PerformAll(d, requests);
            r.xip.trial && r.xip.active == d.xip.active && r.images[0] == d.images[0]
    decreases |requests|
  {
    if requests == [] {
    } else {
      XipRequestKeepsTrial(d, requests[0]);
      hide Perform, Confirms;
      XipRequestsKeepTrial(Perform(d, requests[0]), requests[1..]);
    }
  }

  lemma XipRequestKeepsTrial(d: Device, request: Request)
    requires RunsInPlace(d) && d.xip.trial && !Confirms(d, request, d.xip.active)
    ensures var r := Perform(d, request);
            r.xip.trial && r.xip.active == d.xip.active && r.images[0] == d.images[0]
  {
    hide FindFrom;
  }

  /**
    A one-boot trial that nobody confirms ends where it began: the old slot runs its old content, and the
    trial's slot is erased.
   */
  lemma XipTrialIsUndone(d: Device, requests: seq<Request>)
    requires RunsInPlace(d) && !d.xip.trial && NextXip(d).OtherOnTrial?
    requires NoneConfirms(Reboot(d), requests, 1 - d.xip.active)
    ensures var trial := Reboot(d);
            var back := Reboot(PerformAll(trial, requests));
            && trial.xip.active == 1 - d.xip.active && trial.xip.trial
            && back.xip.active == d.xip.active && !back.xip.trial
            && SlotContent(back, back.xip.active) == SlotContent(d, d.xip.active)
            && SlotContent(back, 1 - back.xip.active) == []
  {
    hide NextXip, PerformAll;
    XipRequestsKeepTrial(Reboot(d), requests);
  }
}
