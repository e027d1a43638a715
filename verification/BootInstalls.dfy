/**
  How a boot ends a schedule without a trial -- an overwrite, a refused downgrade -- what the device answers
  to each request, and which slot runs in place, all stated on octets and slot contents.
 */
module BootInstalls {
  import opened Common
  import opened BootModel
  import opened BootTheorems
  import Tlv

  // --- Booting -------------------------------------------------------------------------------------

  predicate Scheduled(pair: Pair) {
    pair.swap == Test || pair.swap == Perm
  }

  /** The pair has one image, nothing is scheduled and nothing is under way. */
  predicate Settled(pair: Pair) {
    IsClientPair(pair) && pair.secondary == [] && pair.swap == NoSwap
  }

  lemma RebootAt(d: Device, n: nat)
    requires Valid(d) && !IsXip(d.config) && n < |d.images|
    ensures Reboot(d).images[n] == RebootPair(d.config, d.images[n])
  {
  }

  lemma NoImageFound(d: Device, slot: nat, hash: Hash)
    requires slot < 2 * |d.images| && SlotContent(d, slot) == []
    ensures !Carries(d, slot, hash)
  {
  }

  /** No request reaches an empty secondary, and none changes what runs next to it. */
  lemma RequestLeavesSettled(d: Device, request: Request, n: nat)
    requires Valid(d) && !IsXip(d.config) && n < |d.images| && Settled(d.images[n])
    ensures Perform(d, request).images[n] == d.images[n]
  {
    hide FindFrom, Carries, ConfirmDenied;
    if request.SetStateOf? && request.hash.Some? {
      FindsFirst(d, request.hash.value, 0);
      NoImageFound(d, 2 * n + 1, request.hash.value);
    }
  }

  /** A settled pair stays as it is, whatever is asked and however often the device reboots. */
  lemma {:induction false} SettledStays(d: Device, history: seq<Happening>, n: nat)
    requires Valid(d) && !IsXip(d.config) && n < |d.images| && Settled(d.images[n])
    ensures After(d, history).images[n] == d.images[n]
    decreases |history|
  {
    if history == [] {
    } else {
      match history[0]
      case Asked(request) =>
        RequestLeavesSettled(d, request, n);
        hide Perform;
        SettledStays(Perform(d, request), history[1..], n);
      case Rebooted =>
        RebootAt(d, n);
        hide Reboot;
        SettledStays(Reboot(d), history[1..], n);
    }
  }

  /**
    An overwriting bootloader installs for good: the new image is the only one, nothing is left scheduled,
    and whatever is asked and however often the device reboots, it stays so.
   */
  lemma OverwriteInstalls(d: Device, n: nat, history: seq<Happening>)
    requires Valid(d) && d.config.behaviour == Overwrite && n < |d.images|
    requires IsClientPair(d.images[n]) && Scheduled(d.images[n]) && !Downgrade(d.config, d.images[n])
    ensures var booted := Reboot(d);
            && booted.images[n].primary == d.images[n].secondary && booted.images[n].secondary == []
            && booted.images[n].swap == NoSwap
            && After(booted, history).images[n] == booted.images[n]
  {
    hide After, Downgrade, RefusesDowngrade;
    DowngradeExactly(d.config, d.images[n]);
    RebootAt(d, n);
    SettledStays(Reboot(d), history, n);
  }

  /** A refused downgrade is erased: the old image runs on with nothing scheduled, for good. */
  lemma DowngradeErased(d: Device, n: nat, history: seq<Happening>)
    requires Valid(d) && !IsXip(d.config) && n < |d.images|
    requires IsClientPair(d.images[n]) && Scheduled(d.images[n]) && Downgrade(d.config, d.images[n])
    ensures var booted := Reboot(d);
            && booted.images[n].primary == d.images[n].primary && booted.images[n].secondary == []
            && booted.images[n].swap == NoSwap
            && After(booted, history).images[n] == booted.images[n]
  {
    hide After, Downgrade, RefusesDowngrade;
    DowngradeExactly(d.config, d.images[n]);
    RebootAt(d, n);
    SettledStays(Reboot(d), history, n);
  }

  /** The device without downgrade prevention. */
  function Lenient(d: Device): Device {
    d.(config := d.config.(noDowngrade := false))
  }

  /** Any other pair boots as it would without downgrade prevention. */
  lemma OtherwiseAsWithout(d: Device, n: nat)
    requires Valid(d) && n < |d.images|
    requires IsXip(d.config) || d.images[n].device.Some? || !Scheduled(d.images[n]) || !Downgrade(d.config, d.images[n])
    ensures Reboot(d).images[n] == Reboot(Lenient(d)).images[n]
  {
    hide Downgrade, RefusesDowngrade;
    DowngradeExactly(d.config, d.images[n]);
    DowngradeExactly(Lenient(d).config, d.images[n]);
    if IsXip(d.config) {
      XipLenient(d);
    } else {
      NeverLenient(d.images[n], Lenient(d).config);
      RebootAt(d, n);
      RebootAt(Lenient(d), n);
    }
  }

  lemma NeverLenient(pair: Pair, config: Config)
    requires !config.noDowngrade
    ensures !Downgrade(config, pair)
  {
  }

  lemma XipLenient(d: Device)
    requires Valid(d) && IsXip(d.config)
    ensures Reboot(d).images == Reboot(Lenient(d)).images
  {
    hide PrefersOther;
    PreferenceLenient(d);
  }

  lemma PreferenceLenient(d: Device)
    requires Valid(d)
    ensures PrefersOther(d) == PrefersOther(Lenient(d))
  {
    hide Tlv.Describe, Tlv.VersionAt20, VersionLess;
    assert SlotContent(d, 0) == SlotContent(Lenient(d), 0) && SlotContent(d, 1) == SlotContent(Lenient(d), 1);
  }

  // --- What a set-state is answered ----------------------------------------------------------------

  /** Confirms of other images, and of slots that do not run, are the configuration's to allow. */
  predicate MayConfirm(config: Config, image: nat, slot: nat) {
    && (image == 0 || config.confirmOtherAny || (config.confirmOtherSecondary && slot == 1))
    && (slot == 0 || config.confirmNonActive)
  }

  /**
    A request about a slot of a pair, case by case. To test: the running slot is refused; the other one is
    scheduled if nothing is, already scheduled if a test is, and refused behind anything else. To confirm,
    where it may be: the running slot ends a trial, is confirmed already if nothing is scheduled, and is
    refused while a swap is; the other slot is scheduled for good, or is so already, and is refused while a
    test is scheduled.
   */
  lemma SetStateByCase(d: Device, image: nat, slot: nat, confirm: bool)
    requires Valid(d) && image < |d.images| && slot < 2
    ensures var swap := d.images[image].swap;
            var r := SetNextBootSlot(d, 2 * image + slot, confirm);
            && (confirm && !MayConfirm(d.config, image, slot) ==> r == (d, ConfirmationDenied))
            && (!confirm && slot == 0 ==> r == (d, TestToActiveDenied))
            && (!confirm && slot == 1 ==>
                  match swap
                  case NoSwap => r == (d.(images := d.images[image := d.images[image].(swap := Test)]), Accepted)
                  case Test => r == (d, Accepted)
                  case _ => r == (d, AlreadyPending))
            && (confirm && slot == 0 && MayConfirm(d.config, image, slot) ==>
                  match swap
                  case NoSwap => r == (d, Accepted)
                  case Revert => r == (TrialEnded(d, image), Accepted)
                  case _ => r == (d, AlreadyPending))
            && (confirm && slot == 1 && MayConfirm(d.config, image, slot) ==>
                  match swap
                  case NoSwap => r == (d.(images := d.images[image := d.images[image].(swap := Perm)]), Accepted)
                  case Test => r == (d, AlreadyPending)
                  case _ => r == (d, Accepted))
  {
    assert (2 * image + slot) / 2 == image && (2 * image + slot) % 2 == slot;
  }

  /** The trial is over and the image stays; for image 0 the device starts to commit the images it applied. */
  function TrialEnded(d: Device, image: nat): Device
    requires image < |d.images|
  {
    var kept := d.images[image := d.images[image].(swap := NoSwap, applying := None, committing := None)];
    d.(images := if image == 0 then StartDeviceCommits(kept) else kept)
  }

  // --- Running in place ----------------------------------------------------------------------------

  /** The content is a bootable image: a header with the magic number, and the flag that forbids booting clear. */
  predicate Bootable(content: Content) {
    HasHeader(content) && Magic(content) && content[16] & 0x10 == 0
  }

  predicate Magic(content: Content)
    requires HasHeader(content)
  {
    && content[0] as int == 0x3D && content[1] as int == 0xB8
    && content[2] as int == 0xF3 && content[3] as int == 0x96
  }

  /** The slot that does not run holds a bootable image, and what runs is no image, older, or as old and higher up. */
  predicate OtherWins(d: Device)
    requires Valid(d)
  {
    var ours, theirs := SlotContent(d, d.xip.active), SlotContent(d, 1 - d.xip.active);
    && Bootable(theirs)
    && (|| !(HasHeader(ours) && Magic(ours))
        || Lower(ours, theirs)
        || (!Lower(theirs, ours) && d.xip.active == 1))
  }

  lemma MagicRead(content: Content)
    requires HasHeader(content)
    ensures Le32(content, 0) == Tlv.IMAGE_MAGIC <==> Magic(content)
  {
    Digits(OctetValue(content[0]), OctetValue(content[1]), OctetValue(content[2]), OctetValue(content[3]));
  }

  lemma Digits(a: nat, b: nat, c: nat, e: nat)
    requires a < 256 && b < 256 && c < 256 && e < 256
    ensures a + 256 * b + 0x1_0000 * (c + 256 * e) == 0x96F3B83D <==> a == 0x3D && b == 0xB8 && c == 0xF3 && e == 0x96
  {
  }

  lemma OtherWinsExactly(d: Device)
    requires Valid(d)
    ensures PrefersOther(d) <==> OtherWins(d)
  {
    hide Lower, VersionLess, Le32, Magic;
    var ours, theirs := SlotContent(d, d.xip.active), SlotContent(d, 1 - d.xip.active);
    if HasHeader(theirs) {
      MagicRead(theirs);
    }
    if HasHeader(ours) {
      MagicRead(ours);
    }
    if HasHeader(ours) && HasHeader(theirs) {
      LowerExactly(ours, theirs);
      LowerExactly(theirs, ours);
    }
  }

  /**
    Which slot runs after a reboot. Without revert, the other one exactly if it wins. With revert, a trial
    falls back; otherwise the other slot runs exactly if it wins and is marked, on trial if for one boot.
   */
  lemma XipBootsByCase(d: Device)
    requires Valid(d) && IsXip(d.config)
    ensures var r := Reboot(d);
            var falls := d.config.behaviour == DirectXipWithRevert && d.xip.trial;
            var mark := if d.xip.active == 0 then d.xip.second else d.xip.first;
            var moves := OtherWins(d) && (d.config.behaviour == DirectXip || mark != Unset);
            && r.xip.active == (if falls || moves then 1 - d.xip.active else d.xip.active)
            && (falls ==> !r.xip.trial)
            && (!falls ==> r.images == d.images)
            && (!falls && moves ==> r.xip.trial == (d.config.behaviour == DirectXipWithRevert && mark == Once))
            && (!falls && !moves ==> r == d)
  {
    hide PrefersOther, OtherWins;
    OtherWinsExactly(d);
  }
}
