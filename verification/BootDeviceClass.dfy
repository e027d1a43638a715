/** The boot model as an object that changes its images in place, proved against the rules in BootModel. */
module BootDeviceClass {
  import opened Common
  import opened BootModel
  import Tlv

  class BootDevice {
    const config: Config
    var images: seq<Pair>
    var xip: Xip

    ghost function Value(): Device
      reads this
    {
      Device(config, images, xip)
    }

    ghost predicate Ok()
      reads this
    {
      Valid(Value())
    }

    /** A device with erased slots; no image count means one. */
    constructor (config: Config, imageCount: nat, commits: seq<Option<DeviceCommit>>)
      ensures Ok() && this.config == config && |images| == Max(1, imageCount) && xip == Xip(0, Forever, Unset, false)
      ensures forall k :: 0 <= k < |images| ==>
              images[k] == Pair([], [], NoSwap, if k < |commits| then commits[k] else None, None, None)
    {
      this.config := config;
      var pairs := seq(Max(1, imageCount), k => Pair([], [], NoSwap, None, None, None));
      var image := 0;
      while image < |pairs| && image < |commits|
        invariant image <= |commits| && image <= |pairs| == Max(1, imageCount)
        invariant forall k :: 0 <= k < |pairs| ==>
                  pairs[k] == Pair([], [], NoSwap, if k < image then commits[k] else None, None, None)
      {
        pairs := pairs[image := pairs[image].(device := commits[image])];
        image := image + 1;
      }
      images := pairs;
      xip := Xip(0, Forever, Unset, false);
    }

    method FindByHash(hash: Hash) returns (r: Option<nat>)
      ensures r == FindFrom(Value(), hash, 0)
    {
      hide Carries;
      var global := 0;
      while global < 2 * |images|
        invariant global <= 2 * |images|
        invariant FindFrom(Value(), hash, global) == FindFrom(Value(), hash, 0)
      {
        var carried := CarriesHash(global, hash);
        if carried {
          return Some(global);
        }
        global := global + 1;
      }
      return None;
    }

    method CarriesHash(global: nat, hash: Hash) returns (r: bool)
      requires global < 2 * |images|
      ensures r == Carries(Value(), global, hash)
    {
      var content := if global % 2 == 0 then images[global / 2].primary else images[global / 2].secondary;
      var described := Tlv.Describe(content);
      return described.Some? && described.value.hash == hash;
    }

    method StartCommits()
      modifies this`images
      ensures images == StartDeviceCommits(old(images))
    {
      ghost var before := images;
      var i := 0;
      while i < |images|
        invariant 0 <= i <= |images| == |before|
        invariant forall k :: 0 <= k < |images| ==> images[k] == if k < i then StartCommit(before[k]) else before[k]
      {
        var pair := images[i];
        var onTrial := pair.device.Some? && pair.swap.Revert? && pair.applying.None?;
        if onTrial && pair.device.value.commits && pair.committing.None? {
          images := images[i := pair.(committing := Some(pair.device.value.commitReads))];
        }
        i := i + 1;
      }
    }

    method SetNext(global: nat, confirm: bool) returns (error: ImageError)
      requires Ok() && global < 2 * |images|
      modifies this`images
      ensures (Value(), error) == SetNextBootSlot(old(Value()), global, confirm)
    {
      hide StartDeviceCommits, ConfirmDenied;
      var image, slot := global / 2, global % 2;
      var pair := images[image];
      var next := if pair.swap.NoSwap? then 0 else 1;
      if confirm && ConfirmDenied(config, image, slot) {
        return ConfirmationDenied;
      }
      if !confirm && slot == 0 {
        return TestToActiveDenied;
      }
      if pair.swap.Test? {
        return if !confirm && slot == next then Accepted else AlreadyPending;
      }
      if pair.swap.Revert? {
        if !confirm {
          return AlreadyPending;
        }
      } else {
        if confirm && slot == next {
          return Accepted;
        }
        if (slot == 0 && next != 0) || (!confirm && slot != 0 && slot == next) {
          return AlreadyPending;
        }
      }
      if slot == 0 {
        if pair.swap.Revert? {
          images := images[image := pair.(swap := NoSwap, applying := None, committing := None)];
          if image == 0 {
            StartCommits();
          }
        }
      } else if pair.swap.NoSwap? {
        images := images[image := pair.(swap := if confirm then Perm else Test)];
      }
      return Accepted;
    }

    method SetStateFor(hash: Option<Hash>, confirm: bool) returns (error: ImageError)
      requires Ok()
      modifies this
      ensures (Value(), error) == SetState(old(Value()), hash, confirm)
    {
      hide FindFrom, SetNextBootSlot;
      if config.behaviour.DirectXip? {
        return UnknownError;
      }
      var slot := if IsXip(config) then xip.active else 0;
      if hash.None? {
        if !confirm {
          return InvalidHash;
        }
      } else {
        var found := FindByHash(hash.value);
        if found.None? {
          return HashNotFound;
        }
        slot := found.value;
      }
      if IsXip(config) {
        error := SetNextInPlace(slot, confirm);
        return;
      }
      error := SetNext(slot, confirm);
    }

    /** Direct-XIP's rules for marking a slot. */
    method SetNextInPlace(global: nat, confirm: bool) returns (error: ImageError)
      requires Ok()
      modifies this`xip
      ensures (Value(), error) == XipSetNext(old(Value()), global, confirm)
    {
      if global >= 2 {
        return HashNotFound;
      }
      var active := global == xip.active;
      if confirm && !active && !config.confirmNonActive {
        return ConfirmationDenied;
      }
      if !confirm && active {
        return TestToActiveDenied;
      }
      if confirm {
        xip := WithState(xip, global, Forever);
        if active {
          xip := xip.(trial := false);
        }
        return Accepted;
      }
      if xip.trial || StateOf(xip, global).Forever? {
        return AlreadyPending;
      }
      xip := WithState(xip, global, Once);
      return Accepted;
    }

    /** Direct-XIP's reboot: an unconfirmed trial is dropped, else the preferred slot boots. */
    method RestartInPlace()
      requires Ok()
      modifies this
      ensures Value() == XipReboot(old(Value()))
    {
      hide NextXip;
      var other := 1 - xip.active;
      if config.behaviour.DirectXipWithRevert? && xip.trial {
        var pair := images[0];
        images := images[0 := if xip.active == 0 then pair.(primary := []) else pair.(secondary := [])];
        xip := WithState(xip, xip.active, Unset);
        xip := xip.(active := other, trial := false);
        return;
      }
      var next := NextXip(Device(config, images, xip));
      if next.Stay? {
        return;
      }
      xip := xip.(active := other, trial := next.OtherOnTrial?);
    }

    /** Runs every scheduled swap: first the ones that end without a trial, then the exchanges. */
    method Restart()
      requires Ok()
      modifies this
      ensures Value() == Reboot(old(Value()))
    {
      if IsXip(config) {
        RestartInPlace();
        return;
      }
      ghost var before := images;
      EndSwapsWithoutTrial();
      var i := 0;
      while i < |images|
        invariant 0 <= i <= |images| == |before| && xip == old(xip)
        invariant forall k :: 0 <= k < |images| ==>
          images[k] == if k < i then RebootPair(config, before[k]) else EndWithoutTrial(config, before[k])
      {
        RunSwapOf(i);
        i := i + 1;
      }
      assert images == Reboot(old(Value())).images;
    }

    method RunSwapOf(i: nat)
      requires i < |images|
      modifies this`images
      ensures images == old(images)[i := RunSwap(old(images)[i])]
    {
      var pair := images[i];
      if pair.swap.Test? {
        if pair.device.Some? {
          images := images[i := pair.(applying := Some(pair.device.value.applyReads))];
        } else {
          images := images[i := pair.(primary := pair.secondary, secondary := pair.primary, swap := Revert)];
        }
      } else if !pair.swap.NoSwap? {
        images := images[i := pair.(primary := pair.secondary, secondary := pair.primary, swap := NoSwap,
                                    applying := None, committing := None)];
      }
    }

    method EndSwapsWithoutTrial()
      modifies this`images
      ensures |images| == |old(images)|
      ensures forall k :: 0 <= k < |images| ==> images[k] == EndWithoutTrial(config, old(images)[k])
    {
      hide RefusesDowngrade;
      var i := 0;
      while i < |images|
        invariant 0 <= i <= |images| == |old(images)|
        invariant forall k :: 0 <= k < |images| ==>
                  images[k] == if k < i then EndWithoutTrial(config, old(images)[k]) else old(images)[k]
      {
        var pair := images[i];
        if (pair.swap.Test? || pair.swap.Perm?) && pair.device.None? {
          if RefusesDowngrade(config, pair) {
            images := images[i := pair.(secondary := [], swap := NoSwap)];
          } else if config.behaviour.Overwrite? {
            images := images[i := pair.(primary := pair.secondary, secondary := [], swap := NoSwap)];
          }
        }
        i := i + 1;
      }
    }

    /** Moves each pair's apply or commit on by one, then lists the slots as they have become. */
    method ReadState() returns (entries: seq<SlotEntry>)
      requires Ok()
      modifies this`images
      ensures Value() == AdvanceApplies(old(Value())) && entries == Listing(Value())
    {
      ghost var before := images;
      var i := 0;
      while i < |images|
        invariant 0 <= i <= |images| == |before|
        invariant forall k :: 0 <= k < |images| ==> images[k] == if k < i then AdvancePair(before[k]) else before[k]
      {
        AdvanceOf(i);
        i := i + 1;
      }
      assert images == seq(|before|, k requires 0 <= k < |before| => AdvancePair(before[k]));
      if !images[0].swap.Revert? {
        StartCommits();
      }
      entries := List();
    }

    method AdvanceOf(i: nat)
      requires i < |images|
      modifies this`images
      ensures images == old(images)[i := AdvancePair(old(images)[i])]
    {
      var pair := images[i];
      if pair.committing.Some? {
        if pair.committing.value > 0 {
          images := images[i := pair.(committing := Some(pair.committing.value - 1))];
        } else {
          images := images[i := pair.(committing := None, swap := NoSwap)];
        }
        return;
      }
      if pair.applying.None? {
        return;
      }
      if pair.applying.value > 0 {
        images := images[i := pair.(applying := Some(pair.applying.value - 1))];
        return;
      }
      if pair.device.Some? && pair.device.value.applies {
        images := images[i := pair.(applying := None, primary := pair.secondary, secondary := pair.primary,
                                    swap := Revert)];
      } else {
        images := images[i := pair.(applying := None, swap := NoSwap)];
      }
    }

    /** Lists every slot that holds a valid image, image by image. */
    method List() returns (entries: seq<SlotEntry>)
      requires Ok()
      ensures entries == Listing(Value())
    {
      hide EntryOf;
      entries := [];
      var image := 0;
      while image < |images|
        invariant 0 <= image <= |images|
        invariant entries == ListingTo(Value(), image)
      {
        var slot := 0;
        while slot < 2
          invariant 0 <= slot <= 2
          invariant entries == ListingTo(Value(), image)
            + (if slot > 0 then EntryOf(Value(), image, 0) else [])
                + (if slot > 1 then EntryOf(Value(), image, 1) else [])
        {
          var entry := ListOne(image, slot);
          entries := entries + entry;
          slot := slot + 1;
        }
        image := image + 1;
      }
    }

    method ListOne(image: nat, slot: nat) returns (entry: seq<SlotEntry>)
      requires Ok() && image < |images| && slot < 2
      ensures entry == EntryOf(Value(), image, slot)
    {
      hide Flagged;
      var described := Tlv.Describe(SlotContent(Device(config, images, xip), 2 * image + slot));
      if described.None? {
        return [];
      }
      return [Flagged(Device(config, images, xip), image, slot, described.value)];
    }
  }
}
