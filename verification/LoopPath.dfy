/**
  The device's side of an update that goes well: what each request makes of it, and what its slot tables
  then show.
 */
module LoopPath {
  import opened Common
  import opened UpdateTypes
  import opened UpdateMachine
  import opened LoopDevice
  import B = BootModel
  import BootTheorems
  import Tlv

  // --- A listing shows exactly what the slots hold ------------------------------------------------

  predicate Silent(entries: seq<B.SlotEntry>, image: nat) {
    forall k :: 0 <= k < |entries| ==> entries[k].image != image
  }

  /** An entry of `image` that runs `hash`, or does not. */
  predicate RowWith(e: B.SlotEntry, image: nat, hash: B.Hash, active: bool) {
    e.image == image && e.content.hash == hash && e.active == active
  }

  predicate HasRow(entries: seq<B.SlotEntry>, image: nat, hash: B.Hash, active: bool) {
    exists k :: 0 <= k < |entries| && RowWith(entries[k], image, hash, active)
  }

  /** What an image runs, what it has beside that, and whether it is on trial. */
  datatype Content = Content(runs: Option<B.Hash>, beside: Option<B.Hash>, trial: bool)

  function ContentOf(pair: B.Pair): Content {
    Content(B.HashOf(pair.primary), B.HashOf(pair.secondary), pair.swap.Revert?)
  }

  /** Nothing false and nothing missing is said about `image`. */
  predicate Tells(entries: seq<B.SlotEntry>, image: nat, c: Content) {
    && (forall k :: 0 <= k < |entries| && entries[k].image == image ==>
          if entries[k].active then c.runs == Some(entries[k].content.hash) && (entries[k].confirmed <==> !c.trial)
          else c.beside == Some(entries[k].content.hash))
    && (c.runs.Some? ==> HasRow(entries, image, c.runs.value, true))
    && (c.beside.Some? ==> HasRow(entries, image, c.beside.value, false))
  }

  lemma RowStays(a: seq<B.SlotEntry>, b: seq<B.SlotEntry>, image: nat, hash: B.Hash, active: bool)
    ensures HasRow(a, image, hash, active) ==> HasRow(a + b, image, hash, active)
    ensures HasRow(b, image, hash, active) ==> HasRow(a + b, image, hash, active)
  {
    if HasRow(a, image, hash, active) {
      var k :| 0 <= k < |a| && RowWith(a[k], image, hash, active);
      assert (a + b)[k] == a[k];
    }
    if HasRow(b, image, hash, active) {
      var k :| 0 <= k < |b| && RowWith(b[k], image, hash, active);
      assert (a + b)[|a| + k] == b[k];
    }
  }

  lemma TellsMore(a: seq<B.SlotEntry>, b: seq<B.SlotEntry>, image: nat, c: Content)
    requires (Tells(a, image, c) && Silent(b, image)) || (Silent(a, image) && Tells(b, image, c))
    ensures Tells(a + b, image, c)
  {
    if c.runs.Some? {
      RowStays(a, b, image, c.runs.value, true);
    }
    if c.beside.Some? {
      RowStays(a, b, image, c.beside.value, false);
    }
    hide HasRow;
  }

  /** One slot's entry, if it holds an image. */
  predicate SlotTold(entries: seq<B.SlotEntry>, image: nat, hash: Option<B.Hash>, active: bool, trial: bool) {
    if hash.None? then entries == []
    else
      && |entries| == 1 && RowWith(entries[0], image, hash.value, active)
      && (active ==> (entries[0].confirmed <==> !trial))
  }

  lemma SlotsTold(first: seq<B.SlotEntry>, second: seq<B.SlotEntry>, image: nat, c: Content)
    requires SlotTold(first, image, c.runs, true, c.trial) && SlotTold(second, image, c.beside, false, c.trial)
    ensures Tells(first + second, image, c) && forall other :: other != image ==> Silent(first + second, other)
  {
    if c.runs.Some? {
      assert HasRow(first, image, c.runs.value, true);
      RowStays(first, second, image, c.runs.value, true);
    }
    if c.beside.Some? {
      assert HasRow(second, image, c.beside.value, false);
      RowStays(first, second, image, c.beside.value, false);
    }
    hide HasRow;
  }

  lemma SilentMore(a: seq<B.SlotEntry>, b: seq<B.SlotEntry>, image: nat)
    requires Silent(a, image) && Silent(b, image)
    ensures Silent(a + b, image)
  {
  }

  lemma SlotTells(d: B.Device, image: nat, slot: nat)
    requires BootTheorems.Swaps(d) && image < |d.images| && slot < 2
    ensures var pair := d.images[image];
            SlotTold(B.EntryOf(d, image, slot), image, B.HashOf(if slot == 0 then pair.primary else pair.secondary),
                     slot == 0, pair.swap.Revert?)
  {
    hide Tlv.Describe;
    assert (2 * image + slot) / 2 == image && (2 * image + slot) % 2 == slot;
  }

  lemma NothingSaid(image: nat)
    ensures Silent([], image)
  {
  }

  lemma {:induction false} ListingTells(d: B.Device, n: nat, image: nat)
    requires BootTheorems.Swaps(d) && image < |d.images| && n <= |d.images|
    ensures var entries := B.ListingTo(d, n);
            if image < n then Tells(entries, image, ContentOf(d.images[image])) else Silent(entries, image)
  {
    hide B.EntryOf, Tells, B.HashOf, SlotTold, Silent;
    if n == 0 {
      assert Silent([], image) by { NothingSaid(image); }
    } else {
      var before := B.ListingTo(d, n - 1);
      var own := B.EntryOf(d, n - 1, 0) + B.EntryOf(d, n - 1, 1);
      assert B.ListingTo(d, n) == before + own;
      ListingTells(d, n - 1, image);
      SlotTells(d, n - 1, 0);
      SlotTells(d, n - 1, 1);
      SlotsTold(B.EntryOf(d, n - 1, 0), B.EntryOf(d, n - 1, 1), n - 1, ContentOf(d.images[n - 1]));
      if image < n {
        TellsMore(before, own, image, ContentOf(d.images[image]));
      } else {
        SilentMore(before, own, image);
      }
    }
  }

  /** A table that tells of an image shows a target running, kept or present exactly if it is. */
  lemma TableTells(entries: seq<B.SlotEntry>, target: Target, c: Content)
    requires Tells(entries, target.image, c) && target.hash != []
    ensures var t := TableOf(entries);
            && (Runs(t, target) <==> c.runs == Some(target.hash))
            && (Keeps(t, target) <==> c.runs == Some(target.hash) && !c.trial)
            && (Holder(t, target) < |t| <==> c.runs == Some(target.hash) || c.beside == Some(target.hash))
  {
    var t := TableOf(entries);
    if c.runs.Some? {
      var k :| 0 <= k < |entries| && RowWith(entries[k], target.image, c.runs.value, true);
      assert t[k].image == target.image && t[k].active && t[k].hash == Some(c.runs.value);
      assert Active(t, target.image) <= k;
    }
    if c.beside.Some? {
      var k :| 0 <= k < |entries| && RowWith(entries[k], target.image, c.beside.value, false);
      assert t[k].image == target.image && t[k].hash == Some(c.beside.value);
    }
    hide HasRow;
  }

  /** So does every table the device produces. */
  lemma ListingExact(d: B.Device, target: Target)
    requires BootTheorems.Swaps(d) && target.image < |d.images| && target.hash != []
    ensures var t := TableOf(B.Listing(d));
            var c := ContentOf(d.images[target.image]);
            && (Runs(t, target) <==> c.runs == Some(target.hash))
            && (Keeps(t, target) <==> c.runs == Some(target.hash) && !c.trial)
            && (Holder(t, target) < |t| <==> c.runs == Some(target.hash) || c.beside == Some(target.hash))
  {
    hide Tells, ContentOf, Runs, Keeps, Holder, TableOf, B.ListingTo;
    ListingTells(d, |d.images|, target.image);
    TableTells(B.Listing(d), target, ContentOf(d.images[target.image]));
  }

  // --- The device, phase by phase -----------------------------------------------------------------

  /** How far an image has come; only a device image applies and commits on its own. */
  datatype Phase = Old | Sent | Marked | Applies | Trial | Commits | Kept

  /** A scene in which the device does all it is asked for, and the two files. */
  predicate Obliging(s: Scene, a: B.Content, b: B.Content) {
    && Fits(s) && B.HashOf(a) == Some(s.client.hash) && B.HashOf(b) == Some(s.device.hash)
    && s.orig.images[1].device == Some(B.DeviceCommit(true, 0, true, 0))
  }

  function PairIn(was: B.Pair, file: B.Content, phase: Phase): B.Pair {
    match phase
    case Old => was
    case Sent => was.(secondary := file)
    case Marked => was.(secondary := file, swap := B.Test)
    case Applies => was.(secondary := file, swap := B.Test, applying := Some(0))
    case Trial => was.(primary := file, secondary := was.primary, swap := B.Revert)
    case Commits => was.(primary := file, secondary := was.primary, swap := B.Revert, committing := Some(0))
    case Kept => was.(primary := file, secondary := was.primary)
  }

  function DeviceIn(s: Scene, a: B.Content, b: B.Content, app: Phase, other: Phase): (d: B.Device)
    requires |s.orig.images| == 2
    ensures |d.images| == 2
  {
    s.orig.(images := [PairIn(s.orig.images[0], a, app), PairIn(s.orig.images[1], b, other)])
  }

  predicate Running(phase: Phase) {
    phase.Trial? || phase.Commits? || phase.Kept?
  }

  /** What the table says of a pair in a phase. */
  lemma PhaseShows(was: B.Pair, file: B.Content, phase: Phase, hash: B.Hash)
    requires was.swap.NoSwap? && B.HashOf(file) == Some(hash)
    requires B.HashOf(was.primary) != Some(hash) && B.HashOf(was.secondary) != Some(hash)
    ensures var c := ContentOf(PairIn(was, file, phase));
            && (c.runs == Some(hash) <==> Running(phase))
            && (c.runs == Some(hash) && !c.trial <==> phase.Kept?)
            && (c.runs == Some(hash) || c.beside == Some(hash) <==> !phase.Old?)
  {
    hide B.HashOf;
  }

  lemma SceneFacts(s: Scene, a: B.Content, b: B.Content)
    requires Obliging(s, a, b)
    ensures |s.orig.images| == 2 && BootTheorems.Swaps(s.orig)
    ensures Resting(s.orig.images[0]) && Resting(s.orig.images[1]) && s.orig.images[0].device.None?
    ensures s.client.image == 0 && s.device.image == 1
    ensures s.client.hash != [] && s.device.hash != [] && s.client.hash != s.device.hash
    ensures forall k, hash :: 0 <= k < 2 && (hash == s.client.hash || hash == s.device.hash) ==>
              B.HashOf(s.orig.images[k].primary) != Some(hash) && B.HashOf(s.orig.images[k].secondary) != Some(hash)
  {
    hide B.HashOf;
    NowhereFound(s, s.client.hash);
    NowhereFound(s, s.device.hash);
  }

  lemma NowhereFound(s: Scene, hash: B.Hash)
    requires Fits(s) && (hash == s.client.hash || hash == s.device.hash)
    ensures |s.orig.images| == 2
    ensures forall k :: 0 <= k < 2 ==>
              B.HashOf(s.orig.images[k].primary) != Some(hash) && B.HashOf(s.orig.images[k].secondary) != Some(hash)
  {
    hide B.HashOf;
    assert !B.Carries(s.orig, 0, hash) && !B.Carries(s.orig, 1, hash);
    assert !B.Carries(s.orig, 2, hash) && !B.Carries(s.orig, 3, hash);
  }

  /** The table the device gives shows each target running, kept or present as its phase says. */
  lemma TableShows(s: Scene, a: B.Content, b: B.Content, app: Phase, other: Phase)
    requires Obliging(s, a, b)
    ensures |s.orig.images| == 2 && B.Valid(DeviceIn(s, a, b, app, other))
    ensures var t := TableOf(B.Listing(DeviceIn(s, a, b, app, other)));
            && (Runs(t, s.client) <==> Running(app)) && (Keeps(t, s.client) <==> app.Kept?)
            && (Holder(t, s.client) < |t| <==> !app.Old?)
            && (Runs(t, s.device) <==> Running(other)) && (Keeps(t, s.device) <==> other.Kept?)
            && (Holder(t, s.device) < |t| <==> !other.Old?)
  {
    hide B.HashOf, Fits, PairIn, ContentOf, Runs, Keeps, Holder, TableOf, B.Listing, Running;
    SceneFacts(s, a, b);
    var d := DeviceIn(s, a, b, app, other);
    PhaseShows(s.orig.images[0], a, app, s.client.hash);
    PhaseShows(s.orig.images[1], b, other, s.device.hash);
    ListingExact(d, s.client);
    ListingExact(d, s.device);
  }

  // --- What each request makes of it --------------------------------------------------------------

  predicate Staging(phase: Phase) {
    phase.Old? || phase.Sent? || phase.Marked?
  }

  lemma QuietRead(s: Scene, a: B.Content, b: B.Content, app: Phase, other: Phase)
    requires Obliging(s, a, b) && Staging(app) && Staging(other)
    ensures |s.orig.images| == 2 && B.Valid(DeviceIn(s, a, b, app, other))
    ensures B.AdvanceApplies(DeviceIn(s, a, b, app, other)) == DeviceIn(s, a, b, app, other)
  {
    hide B.HashOf, Fits;
    SceneFacts(s, a, b);
    var d := DeviceIn(s, a, b, app, other);
    assert B.AdvanceApplies(d).images == d.images;
  }

  lemma ApplyingRead(s: Scene, a: B.Content, b: B.Content)
    requires Obliging(s, a, b)
    ensures |s.orig.images| == 2 && B.Valid(DeviceIn(s, a, b, Trial, Applies))
    ensures B.AdvanceApplies(DeviceIn(s, a, b, Trial, Applies)) == DeviceIn(s, a, b, Trial, Trial)
  {
    hide B.HashOf, Fits;
    SceneFacts(s, a, b);
    assert B.AdvanceApplies(DeviceIn(s, a, b, Trial, Applies)).images == DeviceIn(s, a, b, Trial, Trial).images;
  }

  lemma CommittingRead(s: Scene, a: B.Content, b: B.Content)
    requires Obliging(s, a, b)
    ensures |s.orig.images| == 2 && B.Valid(DeviceIn(s, a, b, Kept, Commits))
    ensures B.AdvanceApplies(DeviceIn(s, a, b, Kept, Commits)) == DeviceIn(s, a, b, Kept, Kept)
  {
    hide B.HashOf, Fits;
    SceneFacts(s, a, b);
    assert B.AdvanceApplies(DeviceIn(s, a, b, Kept, Commits)).images == DeviceIn(s, a, b, Kept, Kept).images;
  }

  lemma Reboots(s: Scene, a: B.Content, b: B.Content)
    requires Obliging(s, a, b)
    ensures |s.orig.images| == 2 && B.Valid(DeviceIn(s, a, b, Marked, Marked))
    ensures B.Reboot(DeviceIn(s, a, b, Marked, Marked)) == DeviceIn(s, a, b, Trial, Applies)
  {
    hide B.HashOf, Fits;
    SceneFacts(s, a, b);
    assert B.Reboot(DeviceIn(s, a, b, Marked, Marked)).images == DeviceIn(s, a, b, Trial, Applies).images;
  }

  /** A hash is found in the first slot that carries it. */
  lemma FoundAt(d: B.Device, hash: B.Hash, slot: nat)
    requires slot < 2 * |d.images| && B.Carries(d, slot, hash) && forall k :: 0 <= k < slot ==> !B.Carries(d, k, hash)
    ensures B.FindFrom(d, hash, 0) == Some(slot)
  {
    hide B.Carries, B.FindFrom;
    B.FindsFirst(d, hash, 0);
  }

  lemma AppMarked(s: Scene, a: B.Content, b: B.Content)
    requires Obliging(s, a, b)
    ensures |s.orig.images| == 2 && B.Valid(DeviceIn(s, a, b, Sent, Old))
    ensures B.SetState(DeviceIn(s, a, b, Sent, Old), Some(s.client.hash), false)
         == (DeviceIn(s, a, b, Marked, Old), B.Accepted)
  {
    hide B.HashOf, Fits, B.FindFrom;
    SceneFacts(s, a, b);
    var d := DeviceIn(s, a, b, Sent, Old);
    assert B.Carries(d, 1, s.client.hash) && !B.Carries(d, 0, s.client.hash);
    FoundAt(d, s.client.hash, 1);
    assert B.SetNextBootSlot(d, 1, false).0.images == DeviceIn(s, a, b, Marked, Old).images;
  }

  lemma OtherMarked(s: Scene, a: B.Content, b: B.Content)
    requires Obliging(s, a, b)
    ensures |s.orig.images| == 2 && B.Valid(DeviceIn(s, a, b, Marked, Sent))
    ensures B.SetState(DeviceIn(s, a, b, Marked, Sent), Some(s.device.hash), false)
         == (DeviceIn(s, a, b, Marked, Marked), B.Accepted)
  {
    hide B.HashOf, Fits, B.FindFrom;
    SceneFacts(s, a, b);
    var d := DeviceIn(s, a, b, Marked, Sent);
    assert B.Carries(d, 3, s.device.hash) && !B.Carries(d, 0, s.device.hash) && !B.Carries(d, 1, s.device.hash)
           && !B.Carries(d, 2, s.device.hash);
    FoundAt(d, s.device.hash, 3);
    assert B.SetNextBootSlot(d, 3, false).0.images == DeviceIn(s, a, b, Marked, Marked).images;
  }

  lemma AppConfirmed(s: Scene, a: B.Content, b: B.Content)
    requires Obliging(s, a, b)
    ensures |s.orig.images| == 2 && B.Valid(DeviceIn(s, a, b, Trial, Trial))
    ensures B.SetState(DeviceIn(s, a, b, Trial, Trial), Some(s.client.hash), true)
         == (DeviceIn(s, a, b, Kept, Commits), B.Accepted)
  {
    hide B.HashOf, Fits, B.FindFrom;
    SceneFacts(s, a, b);
    var d := DeviceIn(s, a, b, Trial, Trial);
    assert B.Carries(d, 0, s.client.hash);
    FoundAt(d, s.client.hash, 0);
    assert B.SetNextBootSlot(d, 0, true).0.images == DeviceIn(s, a, b, Kept, Commits).images;
  }
}
