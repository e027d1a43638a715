/**
  The device's half of the closed loop: a swapping device with an image the client commits and one it
  commits itself, and what each thing the update may do to it keeps.
 */
module LoopDevice {
  import opened Common
  import opened UpdateTypes
  import opened UpdateMachine
  import B = BootModel
  import BootTheorems
  import Tlv
  import Staging = UpdateStaging

  /** The setting: the plan, the two targets, which of them comes first, and the device as the update finds it. */
  datatype Scene = Scene(plan: Plan, client: Target, device: Target, clientFirst: bool, orig: B.Device)

  /** The targets in the update's order. */
  function Targets(s: Scene): seq<Target> {
    if s.clientFirst then [s.client, s.device] else [s.device, s.client]
  }

  /**
    Neither target is anywhere on the device, nothing is scheduled, and the two targets are told apart by their
    hashes.
   */
  predicate Fits(s: Scene) {
    && s.client.image == 0 && s.client.commit.Client? && s.device.image == 1 && s.device.commit.Device?
    && s.client.builds.None? && s.device.builds.None?
    && s.client.hash != [] && s.device.hash != [] && s.client.hash != s.device.hash
    && Owned(s, s.orig)
    && Resting(s.orig.images[0]) && Resting(s.orig.images[1])
    && (forall slot :: 0 <= slot < 4 ==>
        !B.Carries(s.orig, slot, s.client.hash) && !B.Carries(s.orig, slot, s.device.hash))
  }

  predicate Resting(pair: B.Pair) {
    pair.swap.NoSwap? && pair.applying.None? && pair.committing.None?
  }

  /** Which image owns what never changes, and each target's hash appears only in its own image. */
  predicate Owned(s: Scene, d: B.Device) {
    && BootTheorems.Swaps(d) && |d.images| == 2 && |s.orig.images| == 2
    && BootTheorems.IsClientPair(d.images[0]) && d.images[1].device.Some?
       && d.images[1].device == s.orig.images[1].device
    && Lacks(d.images[0], s.device.hash) && Lacks(d.images[1], s.client.hash)
  }

  predicate Lacks(pair: B.Pair, hash: B.Hash) {
    B.HashOf(pair.primary) != Some(hash) && B.HashOf(pair.secondary) != Some(hash)
  }

  /** The client image's target is in its running slot; the device image's is in its. */
  predicate ClientRuns(s: Scene, d: B.Device)
    requires |d.images| == 2
  {
    B.HashOf(d.images[0].primary) == Some(s.client.hash)
  }

  predicate DeviceRuns(s: Scene, d: B.Device)
    requires |d.images| == 2
  {
    B.HashOf(d.images[1].primary) == Some(s.device.hash)
  }

  /** Until the reboot both images run what they always ran. */
  predicate Before(s: Scene, d: B.Device)
    requires Owned(s, d)
  {
    && d.images[0].primary == s.orig.images[0].primary && (d.images[0].swap.NoSwap? || d.images[0].swap.Test?)
    && d.images[1].primary == s.orig.images[1].primary && (d.images[1].swap.NoSwap? || d.images[1].swap.Test?)
    && d.images[1].applying.None? && d.images[1].committing.None?
  }

  /**
    After it the client image is on trial with its old content kept beside it, or was confirmed, and then
    the device image runs its target. The device image leaves its old content only if the device applies it.
   */
  predicate Since(s: Scene, d: B.Device)
    requires Owned(s, d)
  {
    var app, other, was := d.images[0], d.images[1], s.orig.images[0].primary;
    && app.secondary == was
    && (app.swap.Revert? || (app.swap.NoSwap? && ClientRuns(s, d) && DeviceRuns(s, d)))
    && (other.applying.Some? ==> other.swap.Test?) && (other.swap.Test? ==> !DeviceRuns(s, d))
    && (other.swap.NoSwap? || other.swap.Test? || other.swap.Revert?)
    && (other.applying.Some? ==> other.primary == s.orig.images[1].primary)
    && (other.committing.Some? ==> other.swap.Revert?)
    && (other.primary != s.orig.images[1].primary ==> other.device.value.applies)
  }

  predicate DeviceSound(s: Scene, rebooted: bool, d: B.Device) {
    Owned(s, d) && if rebooted then Since(s, d) else Before(s, d)
  }

  /** Five facts about the device that never become false again while the loop goes on. */
  datatype Facts = Facts(clientMarked: bool, clientRuns: bool, deviceRuns: bool, clientKept: bool, deviceKept: bool)

  function FactsOf(s: Scene, rebooted: bool, d: B.Device): Facts
    requires |d.images| == 2
  {
    var runs0, runs1 := rebooted && ClientRuns(s, d), rebooted && DeviceRuns(s, d);
    Facts(rebooted || d.images[0].swap.Test?, runs0, runs1,
          runs0 && d.images[0].swap.NoSwap?, runs1 && d.images[1].swap.NoSwap?)
  }

  predicate Grown(f: Facts, g: Facts) {
    && (f.clientMarked ==> g.clientMarked)
    && (f.clientRuns ==> g.clientRuns) && (f.deviceRuns ==> g.deviceRuns)
    && (f.clientKept ==> g.clientKept) && (f.deviceKept ==> g.deviceKept)
  }

  // --- Tables ------------------------------------------------------------------------------------

  /** An entry as the client decodes it. */
  function RowOf(e: B.SlotEntry): ImageSlot {
    var v := e.content.version;
    ImageSlot(e.image, e.slot, Some(Version(v.major, v.minor, v.revision, v.build)), Some(e.content.hash),
              e.pending, e.confirmed, e.active)
  }

  function TableOf(entries: seq<B.SlotEntry>): (t: SlotTable)
    ensures |t| == |entries|
  {
    seq(|entries|, k requires 0 <= k < |entries| => RowOf(entries[k]))
  }

  /** What a table claims about the two targets is known of the device. */
  predicate TableTrue(s: Scene, f: Facts, t: SlotTable) {
    && (Staging.Seen(t, s.client) ==> f.clientMarked)
    && (Runs(t, s.client) ==> f.clientRuns) && (Keeps(t, s.client) ==> f.clientKept)
    && (Runs(t, s.device) ==> f.deviceRuns) && (Keeps(t, s.device) ==> f.deviceKept)
  }

  lemma EmptyTrue(s: Scene, f: Facts)
    ensures TableTrue(s, f, [])
  {
  }

  lemma TableStays(s: Scene, f: Facts, g: Facts, t: SlotTable)
    requires TableTrue(s, f, t) && Grown(f, g)
    ensures TableTrue(s, g, t)
  {
    hide Runs, Keeps, Staging.Seen;
  }

  /**
    An entry marked active is about the primary slot of its image, and unconfirmed exactly during a trial;
    one marked pending is of an image scheduled to be swapped.
   */
  predicate EntryTrue(d: B.Device, e: B.SlotEntry) {
    && e.image < |d.images|
    && (e.pending ==> d.images[e.image].swap.Test? || d.images[e.image].swap.Perm?)
    && (e.active ==>
          && B.HashOf(d.images[e.image].primary) == Some(e.content.hash)
          && (e.confirmed <==> !d.images[e.image].swap.Revert?))
  }

  lemma EntryOfTrue(d: B.Device, image: nat, slot: nat)
    requires BootTheorems.Swaps(d) && image < |d.images| && slot < 2
    ensures forall e :: e in B.EntryOf(d, image, slot) ==> EntryTrue(d, e)
  {
    hide Tlv.Describe;
    assert (2 * image + slot) / 2 == image;
  }

  lemma {:induction false} ListingTrue(d: B.Device, n: nat)
    requires BootTheorems.Swaps(d) && n <= |d.images|
    ensures forall e :: e in B.ListingTo(d, n) ==> EntryTrue(d, e)
  {
    hide B.EntryOf, EntryTrue;
    if n == 0 {
    } else {
      ListingTrue(d, n - 1);
      EntryOfTrue(d, n - 1, 0);
      EntryOfTrue(d, n - 1, 1);
    }
  }

  /** What a listing says a target's image runs, its primary slot holds. */
  lemma ListingRuns(d: B.Device, target: Target)
    requires BootTheorems.Swaps(d)
    ensures var t := TableOf(B.Listing(d));
            && (Runs(t, target) ==>
                target.image < |d.images| && B.HashOf(d.images[target.image].primary) == Some(target.hash))
            && (Keeps(t, target) ==> target.image < |d.images| && !d.images[target.image].swap.Revert?)
            && (Staging.Seen(t, target) && !Runs(t, target) ==>
                && target.image < |d.images|
                && (d.images[target.image].swap.Test? || d.images[target.image].swap.Perm?))
  {
    hide B.ListingTo, B.HashOf;
    ListingTrue(d, |d.images|);
    var t := TableOf(B.Listing(d));
    if Runs(t, target) {
      assert EntryTrue(d, B.Listing(d)[Active(t, target.image)]);
    } else if Staging.Seen(t, target) {
      assert EntryTrue(d, B.Listing(d)[Holder(t, target)]);
    }
  }

  /** Every table the device produces is true of it. */
  lemma ListingTableTrue(s: Scene, rebooted: bool, d: B.Device)
    requires Fits(s) && DeviceSound(s, rebooted, d)
    ensures TableTrue(s, FactsOf(s, rebooted, d), TableOf(B.Listing(d)))
  {
    hide Runs, Keeps, TableOf, B.HashOf, B.Listing, Staging.Seen, Fits;
    ImagesFit(s);
    ListingRuns(d, s.client);
    ListingRuns(d, s.device);
    OrigLacks(s);
    KeepsRuns(TableOf(B.Listing(d)), s.client);
    KeepsRuns(TableOf(B.Listing(d)), s.device);
  }

  lemma ImagesFit(s: Scene)
    requires Fits(s)
    ensures s.client.image == 0 && s.device.image == 1
  {
    hide Owned, B.Carries;
  }

  lemma KeepsRuns(t: SlotTable, target: Target)
    ensures Keeps(t, target) ==> Runs(t, target)
  {
  }

  /** At first neither target runs. */
  lemma OrigLacks(s: Scene)
    requires Fits(s)
    ensures B.HashOf(s.orig.images[0].primary) != Some(s.client.hash)
            && B.HashOf(s.orig.images[1].primary) != Some(s.device.hash)
  {
    hide B.HashOf;
    assert !B.Carries(s.orig, 0, s.client.hash) && !B.Carries(s.orig, 2, s.device.hash);
  }

  // --- What each thing that can happen keeps ------------------------------------------------------

  /** A read advances only the device's own image. */
  lemma ReadShape(s: Scene, d: B.Device)
    requires Owned(s, d)
    ensures var r := B.AdvanceApplies(d);
            && |d.images| == 2 && |r.images| == 2 && r == d.(images := [d.images[0], r.images[1]])
            && (r.images[1] == B.AdvancePair(d.images[1]) || r.images[1] == B.StartCommit(B.AdvancePair(d.images[1])))
  {
    hide B.HashOf;
    assert B.AdvancePair(d.images[0]) == d.images[0];
    assert B.StartCommit(d.images[0]) == d.images[0];
    hide B.AdvancePair, B.StartCommit;
  }

  /**
    So does a step of its apply or commit: it runs the target for good once it does, and is kept for good once
    it is.
   */
  lemma AdvanceKeeps(s: Scene, rebooted: bool, d: B.Device, pair: B.Pair)
    requires Fits(s) && DeviceSound(s, rebooted, d)
    requires pair == B.AdvancePair(d.images[1]) || pair == B.StartCommit(B.AdvancePair(d.images[1]))
    ensures var r := d.(images := [d.images[0], pair]);
            DeviceSound(s, rebooted, r) && Grown(FactsOf(s, rebooted, d), FactsOf(s, rebooted, r))
  {
    hide B.HashOf, Fits;
    OrigLacks(s);
  }

  lemma ReadKeeps(s: Scene, rebooted: bool, d: B.Device)
    requires Fits(s) && DeviceSound(s, rebooted, d)
    ensures var r := B.AdvanceApplies(d);
            DeviceSound(s, rebooted, r) && Grown(FactsOf(s, rebooted, d), FactsOf(s, rebooted, r))
  {
    hide *;
    OwnedBy(s, rebooted, d);
    ReadShape(s, d);
    AdvanceKeeps(s, rebooted, d, B.AdvanceApplies(d).images[1]);
  }

  lemma OwnedBy(s: Scene, rebooted: bool, d: B.Device)
    requires DeviceSound(s, rebooted, d)
    ensures Owned(s, d) && B.Valid(d) && |d.images| == 2
  {
  }

  /**
    A mark for test schedules one image at most, whose secondary slot has the hash and whose primary slot
    has not; and an accepted one leaves that image scheduled.
   */
  lemma MarkShape(d: B.Device, hash: B.Hash) returns (n: nat)
    requires BootTheorems.Swaps(d) && |d.images| == 2
    ensures n < 2
    ensures var r := B.SetState(d, Some(hash), false);
            var pair := d.images[n];
            && (r.0 == d || (r.0 == d.(images := d.images[n := pair.(swap := B.Test)]) && pair.swap.NoSwap?
                             && B.HashOf(pair.secondary) == Some(hash) && B.HashOf(pair.primary) != Some(hash)))
            && (r.1.Accepted? ==> B.HashOf(pair.secondary) == Some(hash) && r.0.images[n].swap.Test?)
  {
    hide B.HashOf, B.FindFrom;
    B.FindsFirst(d, hash, 0);
    var found := B.FindFrom(d, hash, 0);
    n := if found.Some? then found.value / 2 else 0;
    if found.Some? {
      assert B.Carries(d, found.value, hash);
      if found.value % 2 == 1 {
        assert !B.Carries(d, found.value - 1, hash);
      }
    }
  }

  /** Before the reboot a mark changes no slot, and once accepted for the client image it stands. */
  lemma MarkKeeps(s: Scene, d: B.Device, hash: B.Hash)
    requires Fits(s) && DeviceSound(s, false, d)
    ensures var r := B.SetState(d, Some(hash), false);
            && DeviceSound(s, false, r.0) && Grown(FactsOf(s, false, d), FactsOf(s, false, r.0))
            && (r.1.Accepted? && hash == s.client.hash ==> FactsOf(s, false, r.0).clientMarked)
  {
    hide B.HashOf, B.SetState, Fits;
    OwnedBy(s, false, d);
    var n := MarkShape(d, hash);
  }

  /** A mark carried out only after the reboot schedules the device image anew, if anything. */
  lemma LateMarkKeeps(s: Scene, d: B.Device, hash: B.Hash)
    requires Fits(s) && DeviceSound(s, true, d) && (hash == s.client.hash || hash == s.device.hash)
    ensures var r := B.SetState(d, Some(hash), false).0;
            DeviceSound(s, true, r) && Grown(FactsOf(s, true, d), FactsOf(s, true, r))
  {
    hide B.HashOf, B.SetState, Fits;
    OwnedBy(s, true, d);
    var n := MarkShape(d, hash);
  }

  /** An upload writes the secondary slot of its image. */
  function Uploaded(d: B.Device, image: nat, content: B.Content): B.Device
    requires image < |d.images|
  {
    d.(images := d.images[image := d.images[image].(secondary := content)])
  }

  /** What an upload of an image may write: anything but the other target. */
  predicate MayUpload(s: Scene, image: nat, content: B.Content) {
    image < 2 && B.HashOf(content) != Some(if image == 0 then s.device.hash else s.client.hash)
  }

  lemma UploadKeeps(s: Scene, d: B.Device, image: nat, content: B.Content)
    requires Fits(s) && DeviceSound(s, false, d) && MayUpload(s, image, content)
    ensures var r := Uploaded(d, image, content);
            DeviceSound(s, false, r) && Grown(FactsOf(s, false, d), FactsOf(s, false, r))
  {
    hide B.HashOf;
  }

  /** A confirm of the running client image is accepted, and starts the device's commit. */
  lemma ConfirmShape(s: Scene, d: B.Device)
    requires Owned(s, d) && ClientRuns(s, d) && (d.images[0].swap.NoSwap? || d.images[0].swap.Revert?)
    ensures var r := B.SetState(d, Some(s.client.hash), true);
            && r.1.Accepted? && r.0 == d.(images := r.0.images) && |r.0.images| == 2
            && r.0.images[0] == d.images[0].(swap := B.NoSwap)
            && (r.0.images[1] == d.images[1] || r.0.images[1] == B.StartCommit(d.images[1]))
  {
    hide B.HashOf, B.Named, ClientRuns;
    ClientNamed(s, d);
  }

  lemma ClientCarried(s: Scene, d: B.Device)
    requires Owned(s, d) && ClientRuns(s, d)
    ensures B.Carries(d, 0, s.client.hash)
  {
    hide B.HashOf;
  }

  lemma ClientNamed(s: Scene, d: B.Device)
    requires Owned(s, d) && ClientRuns(s, d)
    ensures B.Named(d, Some(s.client.hash), true) == Ok(0)
  {
    hide B.Carries, B.FindFrom, ClientRuns, Lacks;
    ClientCarried(s, d);
    B.FindsFirst(d, s.client.hash, 0);
  }

  /** Confirming the client image once both images run their targets keeps it for good. */
  lemma ConfirmKeeps(s: Scene, d: B.Device)
    requires Fits(s) && DeviceSound(s, true, d) && ClientRuns(s, d) && DeviceRuns(s, d)
    ensures var r := B.SetState(d, Some(s.client.hash), true);
            && r.1.Accepted? && DeviceSound(s, true, r.0) && Grown(FactsOf(s, true, d), FactsOf(s, true, r.0))
            && r.0.images[0].swap.NoSwap?
  {
    hide B.HashOf, B.SetState, Fits;
    OrigLacks(s);
    ConfirmShape(s, d);
  }

  /** The one reboot, with the client image marked, starts the trial and the apply. */
  lemma RestartKeeps(s: Scene, d: B.Device)
    requires Fits(s) && DeviceSound(s, false, d) && d.images[0].swap.Test?
    ensures var r := B.Reboot(d);
            DeviceSound(s, true, r) && Grown(FactsOf(s, false, d), FactsOf(s, true, r))
  {
    hide B.HashOf, Fits;
    OrigLacks(s);
  }

  /** Kept for good without its counterpart, or lost after a failed apply: neither can be. */
  lemma NoHalf(s: Scene, rebooted: bool, d: B.Device)
    requires Fits(s) && DeviceSound(s, rebooted, d)
    ensures ClientRuns(s, d) && d.images[0].swap.NoSwap? ==> DeviceRuns(s, d) && d.images[1].device.value.applies
    ensures rebooted && !DeviceRuns(s, d) ==> B.Reboot(d).images[0].primary == s.orig.images[0].primary
  {
    hide B.HashOf, Fits;
    OrigLacks(s);
  }
}
