/**
  What a device shows and how it gets on: the slot listing, set-state on a device that runs in place, and the
  images the device applies and commits on its own, read after read.
 */
module BootProgress {
  import opened Common
  import opened BootModel
  import opened BootTheorems
  import opened BootInstalls
  import Tlv

  // --- The listing ---------------------------------------------------------------------------------

  /** The flags of a slot, by the swap that is due: what runs is confirmed unless it will be undone. */
  predicate FlagsFit(swap: SwapType, slot: nat, e: SlotEntry) {
    if slot == 0 then e.active && !e.pending && !e.permanent && (e.confirmed <==> swap != Revert)
    else
      && !e.active && (e.pending <==> swap == Test || swap == Perm) && (e.permanent <==> swap == Perm)
      && (e.confirmed <==> swap == Revert)
  }

  /** On a device that runs image 0 in place: the slot that runs, and whether the other would be booted next. */
  predicate XipFlagsFit(d: Device, slot: nat, e: SlotEntry)
    requires Valid(d)
  {
    var active := slot == d.xip.active;
    var mark := if d.xip.active == 0 then d.xip.second else d.xip.first;
    && e.active == active
    && if d.config.behaviour == DirectXip then
         !e.confirmed && (e.pending <==> !active && OtherWins(d)) && e.permanent == e.pending
       else if d.xip.trial then !e.pending && !e.permanent && e.confirmed == !active
       else
         && (e.confirmed <==> active) && (e.pending <==> !active && OtherWins(d) && mark != Unset)
         && (e.permanent <==> e.pending && mark == Forever)
  }

  predicate EntryFits(d: Device, e: SlotEntry, image: nat, slot: nat)
    requires Valid(d) && image < |d.images| && slot < 2
  {
    && e.image == image && e.slot == slot && Tlv.Describe(SlotContent(d, 2 * image + slot)) == Some(e.content)
    && (if IsXip(d.config) && image == 0 then XipFlagsFit(d, slot, e) else FlagsFit(d.images[image].swap, slot, e))
  }

  lemma EntryExactly(d: Device, image: nat, slot: nat)
    requires Valid(d) && image < |d.images| && slot < 2
    ensures if Tlv.Describe(SlotContent(d, 2 * image + slot)).None? then EntryOf(d, image, slot) == []
            else |EntryOf(d, image, slot)| == 1 && EntryFits(d, EntryOf(d, image, slot)[0], image, slot)
  {
    hide Tlv.Describe, PrefersOther, OtherWins;
    OtherWinsExactly(d);
  }

  /** The place of an entry: image by image, the lower slot first. */
  function PlaceOf(e: SlotEntry): nat {
    2 * e.image + e.slot
  }

  /** The listing has the slots below `end` that hold an image, each once, in order, and with its flags. */
  predicate Lists(d: Device, entries: seq<SlotEntry>, end: nat)
    requires Valid(d)
  {
    && (forall j :: 0 <= j < |entries| ==>
          && entries[j].image < |d.images| && entries[j].slot < 2 && PlaceOf(entries[j]) < end
          && EntryFits(d, entries[j], entries[j].image, entries[j].slot))
    && (forall j, k :: 0 <= j < k < |entries| ==> PlaceOf(entries[j]) < PlaceOf(entries[k]))
    && (forall p :: 0 <= p < end && p < 2 * |d.images| && Tlv.Describe(SlotContent(d, p)).Some? ==>
          ListsPlace(entries, p))
  }

  predicate ListsPlace(entries: seq<SlotEntry>, p: nat) {
    exists j :: 0 <= j < |entries| && PlaceOf(entries[j]) == p
  }

  lemma ListsOneMore(d: Device, entries: seq<SlotEntry>, image: nat, slot: nat)
    requires Valid(d) && image < |d.images| && slot < 2 && Lists(d, entries, 2 * image + slot)
    ensures Lists(d, entries + EntryOf(d, image, slot), 2 * image + slot + 1)
  {
    hide Tlv.Describe, EntryOf, SlotContent, EntryFits;
    EntryExactly(d, image, slot);
    if Tlv.Describe(SlotContent(d, 2 * image + slot)).None? {
      assert entries + EntryOf(d, image, slot) == entries;
    } else {
      var e := EntryOf(d, image, slot)[0];
      assert e.image == image && e.slot == slot by { Placed(d, e, image, slot); }
      ListsAlso(d, entries, e);
      assert EntryOf(d, image, slot) == [e];
    }
  }

  lemma Placed(d: Device, e: SlotEntry, image: nat, slot: nat)
    requires Valid(d) && image < |d.images| && slot < 2 && EntryFits(d, e, image, slot)
    ensures e.image == image && e.slot == slot
  {
  }

  lemma ListsAlso(d: Device, entries: seq<SlotEntry>, e: SlotEntry)
    requires Valid(d) && e.image < |d.images| && e.slot < 2 && Lists(d, entries, PlaceOf(e))
    requires EntryFits(d, e, e.image, e.slot)
    ensures Lists(d, entries + [e], PlaceOf(e) + 1)
  {
    hide Tlv.Describe, SlotContent, EntryFits;
    var more := entries + [e];
    forall p | 0 <= p <= PlaceOf(e) && p < 2 * |d.images| && Tlv.Describe(SlotContent(d, p)).Some?
      ensures ListsPlace(more, p)
    {
      if p < PlaceOf(e) {
        var j :| 0 <= j < |entries| && PlaceOf(entries[j]) == p;
        assert more[j] == entries[j];
      } else {
        assert more[|entries|] == e;
      }
    }
  }

  lemma {:induction false} ListingTells(d: Device, images: nat)
    requires Valid(d) && images <= |d.images|
    ensures Lists(d, ListingTo(d, images), 2 * images)
  {
    hide EntryOf, Lists;
    if images == 0 {
      NothingListed(d);
    } else {
      ListingTells(d, images - 1);
      ListsOneMore(d, ListingTo(d, images - 1), images - 1, 0);
      ListsOneMore(d, ListingTo(d, images - 1) + EntryOf(d, images - 1, 0), images - 1, 1);
    }
  }

  lemma NothingListed(d: Device)
    requires Valid(d)
    ensures Lists(d, [], 0)
  {
  }

  /** A read lists every slot that holds an image, once, in order, with the flags that its swap or its mark gives it. */
  lemma ListingExactly(d: Device)
    requires Valid(d)
    ensures Lists(d, Listing(d), 2 * |d.images|)
  {
    hide ListingTo, Lists;
    ListingTells(d, |d.images|);
  }

  // --- Set-state where image 0 runs in place -------------------------------------------------------

  /** The slot's mark set. */
  predicate MarkSet(x: Xip, y: Xip, slot: nat, mark: XipState) {
    && y.active == x.active
    && (if slot == 0 then y.first == mark && y.second == x.second else y.second == mark && y.first == x.first)
  }

  /**
    To confirm: the slot that runs is kept for good and its trial, if it was on one, is over; the other only if the
    configuration allows it. To test: never the slot that runs, nothing during a trial, and no slot that is marked
    for good already.
   */
  lemma XipSetStateByCase(d: Device, slot: nat, confirm: bool)
    requires Valid(d) && IsXip(d.config)
    ensures var (r, answer) := XipSetNext(d, slot, confirm);
            var active := slot == d.xip.active;
            var mark := if slot == 0 then d.xip.first else d.xip.second;
            if slot >= 2 then r == d && answer == HashNotFound
            else if confirm then
              if !active && !d.config.confirmNonActive then r == d && answer == ConfirmationDenied
              else
                && answer == Accepted && r == d.(xip := r.xip) && MarkSet(d.xip, r.xip, slot, Forever)
                && (r.xip.trial <==> d.xip.trial && !active)
            else if active then r == d && answer == TestToActiveDenied
            else if d.xip.trial || mark == Forever then r == d && answer == AlreadyPending
            else
              && answer == Accepted && r == d.(xip := r.xip) && MarkSet(d.xip, r.xip, slot, Once)
              && r.xip.trial == d.xip.trial
  {
  }

  /** A request names the slot with its hash, the first of several; without one, a confirm names what runs. */
  lemma NamedExactly(d: Device, hash: Option<Hash>, confirm: bool)
    requires Valid(d)
    ensures var r := Named(d, hash, confirm);
            if d.config.behaviour == DirectXip then r == Err(UnknownError)
            else match hash
              case None => r == if !confirm then Err(InvalidHash) else Ok(if IsXip(d.config) then d.xip.active else 0)
              case Some(h) =>
                match r
                case Err(e) => e == HashNotFound && forall s :: 0 <= s < 2 * |d.images| ==> !Carries(d, s, h)
                case Ok(slot) => Carries(d, slot, h) && forall s :: 0 <= s < slot ==> !Carries(d, s, h)
  {
    hide FindFrom, Carries;
    if hash.Some? {
      FindsFirst(d, hash.value, 0);
    }
  }

  /** When a trial in place falls back, its slot is erased and its mark taken away. */
  lemma XipFallsBack(d: Device)
    requires Valid(d) && d.config.behaviour == DirectXipWithRevert && d.xip.trial
    ensures var r := Reboot(d);
            && SlotContent(r, d.xip.active) == []
            && SlotContent(r, 1 - d.xip.active) == SlotContent(d, 1 - d.xip.active)
            && (if d.xip.active == 0 then r.xip.first == Unset && r.xip.second == d.xip.second
                else r.xip.second == Unset && r.xip.first == d.xip.first)
  {
  }

  // --- The device's own images ---------------------------------------------------------------------

  /** So many reads later. */
  function Reads(d: Device, k: nat): (r: Device)
    requires Valid(d)
    ensures Valid(r) && |r.images| == |d.images| && r.config == d.config && r.xip == d.xip
  {
    if k == 0 then d else AdvanceApplies(Reads(d, k - 1))
  }

  /** A reboot into a scheduled image of the device's own starts its apply, and exchanges nothing yet. */
  lemma ApplyBegins(d: Device, n: nat)
    requires Valid(d) && !IsXip(d.config) && n < |d.images|
    requires d.images[n].device.Some? && d.images[n].swap == Test
    ensures Reboot(d).images[n] == d.images[n].(applying := Some(d.images[n].device.value.applyReads))
  {
  }

  lemma PairGoesOn(pair: Pair)
    requires pair.committing.None? && pair.applying.Some? && pair.applying.value > 0 && pair.swap != Revert
    ensures AdvancePair(pair) == pair.(applying := Some(pair.applying.value - 1))
    ensures StartCommit(AdvancePair(pair)) == AdvancePair(pair)
  {
  }

  /** While an apply is going on, each read brings it one step on. */
  lemma {:induction false} ApplyGoesOn(d: Device, n: nat, k: nat)
    requires Valid(d) && n < |d.images| && d.images[n].swap != Revert
    requires d.images[n].committing.None? && d.images[n].applying.Some? && k <= d.images[n].applying.value
    ensures Reads(d, k).images[n] == d.images[n].(applying := Some(d.images[n].applying.value - k))
  {
    hide AdvanceApplies, AdvancePair, StartCommit;
    if k == 0 {
    } else {
      ApplyGoesOn(d, n, k - 1);
      var before := Reads(d, k - 1);
      assert Reads(d, k) == AdvanceApplies(before);
      hide Reads;
      OneRead(before, n);
      PairGoesOn(before.images[n]);
    }
  }

  lemma OneRead(d: Device, n: nat)
    requires Valid(d) && n < |d.images|
    ensures AdvanceApplies(d).images[n] == AdvancePair(d.images[n])
         || AdvanceApplies(d).images[n] == StartCommit(AdvancePair(d.images[n]))
  {
  }

  /**
    After a reboot into a scheduled image of the device's own, its apply takes exactly as many reads as it says, and
    the next one ends it. If the device could apply the image, it runs on trial and the old one is kept; if not,
    nothing has changed and nothing is scheduled.
   */
  lemma ApplyEnds(d: Device, n: nat)
    requires Valid(d) && !IsXip(d.config) && n < |d.images|
    requires d.images[n].device.Some? && d.images[n].swap == Test && d.images[n].committing.None?
    ensures var before, turns := d.images[n], d.images[n].device.value.applyReads;
            && Reads(Reboot(d), turns).images[n] == before.(applying := Some(0))
            && var after := Reads(Reboot(d), turns + 1).images[n];
               && after.applying.None? && after.device == before.device
               && if before.device.value.applies then
                    after.primary == before.secondary && after.secondary == before.primary && after.swap == Revert
                  else after == before.(applying := None, swap := NoSwap)
  {
    ApplyBegins(d, n);
    hide Reboot, Reads;
    var booted, last := Reboot(d), d.images[n].device.value.applyReads;
    ApplyGoesOn(booted, n, last);
    OneRead(Reads(booted, last), n);
    ReadOnceMore(booted, last);
  }

  lemma ReadOnceMore(d: Device, k: nat)
    requires Valid(d)
    ensures Reads(d, k + 1) == AdvanceApplies(Reads(d, k))
  {
  }

  /** A commit under way takes so many reads, and then the image is kept. */
  lemma {:induction false} CommitGoesOn(d: Device, n: nat, k: nat)
    requires Valid(d) && n < |d.images| && d.images[n].committing.Some? && k <= d.images[n].committing.value
    ensures Reads(d, k).images[n] == d.images[n].(committing := Some(d.images[n].committing.value - k))
  {
    if k == 0 {
    } else {
      CommitGoesOn(d, n, k - 1);
      hide Reads;
      OneRead(Reads(d, k - 1), n);
      ReadOnceMore(d, k - 1);
    }
  }

  lemma CommitEnds(d: Device, n: nat)
    requires Valid(d) && n < |d.images| && d.images[n].committing.Some?
    ensures Reads(d, d.images[n].committing.value + 1).images[n] == d.images[n].(committing := None, swap := NoSwap)
  {
    var last := d.images[n].committing.value;
    CommitGoesOn(d, n, last);
    hide Reads;
    OneRead(Reads(d, last), n);
    ReadOnceMore(d, last);
  }

  /**
    When a commit begins: with the first read that finds no trial of image 0, or with the confirm of image 0, for
    every image of the device's own that it has applied and is to commit.
   */
  lemma CommitBegins(d: Device, n: nat)
    requires Valid(d) && n < |d.images| && d.images[n].device.Some? && d.images[n].swap == Revert
    requires d.images[n].applying.None? && d.images[n].committing.None?
    ensures var commits := d.images[n].device.value.commits;
            var begun := d.images[n].(committing := Some(d.images[n].device.value.commitReads));
            && (AdvanceApplies(d).images[0].swap != Revert ==>
                  AdvanceApplies(d).images[n] == if commits then begun else d.images[n])
            && (AdvanceApplies(d).images[0].swap == Revert ==> AdvanceApplies(d).images[n] == d.images[n])
            && (n != 0 ==> TrialEnded(d, 0).images[n] == if commits then begun else d.images[n])
  {
  }
}
