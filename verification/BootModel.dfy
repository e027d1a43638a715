/**
  The device side of an update: pairs of slots, the rules of set-state, the effect of a reboot, and the
  progress of images the device looks after on its own. The rules are functions on a device value;
  the class in BootDeviceClass.dfy changes its fields in place and is proved against them.
 */
module BootModel {
  import opened Common
  import Tlv

  type Hash = seq<byte>
  type Content = seq<byte>

  datatype SwapType = NoSwap | Test | Perm | Revert

  datatype DeviceCommit = DeviceCommit(applies: bool, applyReads: nat, commits: bool, commitReads: nat)

  datatype Behaviour = SwapWithRevert | Overwrite | DirectXip | DirectXipWithRevert

  datatype Config = Config(
    behaviour: Behaviour, noDowngrade: bool, confirmOtherSecondary: bool, confirmOtherAny: bool, confirmNonActive: bool)

  /** A pair of slots, the swap due at the next start, and how far the device's own apply or commit has come. */
  datatype Pair = Pair(
    primary: Content, secondary: Content, swap: SwapType, device: Option<DeviceCommit>,
    applying: Option<nat>, committing: Option<nat>)

  datatype XipState = Unset | Once | Forever

  /** Direct-XIP's boot state of image 0: which slot runs, each slot's mark, whether the running one is on trial. */
  datatype Xip = Xip(active: nat, first: XipState, second: XipState, trial: bool)

  datatype Device = Device(config: Config, images: seq<Pair>, xip: Xip)

  predicate Valid(d: Device) {
    |d.images| > 0 && d.xip.active <= 1
  }

  datatype ImageError =
    | Accepted | UnknownError | InvalidHash | HashNotFound | ConfirmationDenied | TestToActiveDenied | AlreadyPending

  predicate IsXip(config: Config) {
    config.behaviour.DirectXip? || config.behaviour.DirectXipWithRevert?
  }

  // --- Slots by number ---------------------------------------------------------------------------

  /** The octets in a slot by its number, counting two to an image. */
  function SlotContent(d: Device, slot: nat): Content
    requires slot < 2 * |d.images|
  {
    if slot % 2 == 0 then d.images[slot / 2].primary else d.images[slot / 2].secondary
  }

  function HashOf(content: Content): Option<Hash> {
    match Tlv.Describe(content)
    case None => None
    case Some(image) => Some(image.hash)
  }

  /** Global slot `slot` holds a valid image with this hash. */
  predicate Carries(d: Device, slot: nat, hash: Hash) {
    slot < 2 * |d.images| && HashOf(SlotContent(d, slot)) == Some(hash)
  }

  /** The first global slot at or after `from` that carries `hash`. */
  function FindFrom(d: Device, hash: Hash, from: nat): (r: Option<nat>)
    requires from <= 2 * |d.images|
    ensures r.Some? ==> from <= r.value < 2 * |d.images|
    decreases 2 * |d.images| - from
  {
    if from == 2 * |d.images| then None
    else if Carries(d, from, hash) then Some(from)
    else FindFrom(d, hash, from + 1)
  }

  /** The search finds the first slot that carries the hash, if any does. */
  lemma {:induction false} FindsFirst(d: Device, hash: Hash, from: nat)
    requires from <= 2 * |d.images|
    ensures match FindFrom(d, hash, from)
            case Some(slot) => Carries(d, slot, hash) && forall k :: from <= k < slot ==> !Carries(d, k, hash)
            case None => forall k :: from <= k < 2 * |d.images| ==> !Carries(d, k, hash)
    decreases 2 * |d.images| - from
  {
    hide Carries;
    if from < 2 * |d.images| && !Carries(d, from, hash) {
      FindsFirst(d, hash, from + 1);
    }
  }

  // --- Set-state ---------------------------------------------------------------------------------

  /** The pair with its commit begun, if the device is to commit it and has not begun yet. */
  function StartCommit(pair: Pair): Pair {
    if pair.device.Some? && pair.swap.Revert? && pair.applying.None? && pair.device.value.commits
        && pair.committing.None?
    then pair.(committing := Some(pair.device.value.commitReads)) else pair
  }

  function StartDeviceCommits(images: seq<Pair>): (r: seq<Pair>)
    ensures |r| == |images|
  {
    seq(|images|, k requires 0 <= k < |images| => StartCommit(images[k]))
  }

  /** Whether the configuration forbids confirming this slot of this image. */
  predicate ConfirmDenied(config: Config, image: nat, slot: nat) {
    || (image != 0 && !config.confirmOtherAny && (!config.confirmOtherSecondary || slot == 0))
    || (slot != 0 && !config.confirmNonActive)
  }

  /** A request about a pair's slot: refused, already in force, or to be carried out. */
  datatype Ruling = Refused(error: ImageError) | InForce | CarryOut

  function Rule(config: Config, image: nat, slot: nat, swap: SwapType, confirm: bool): Ruling {
    var next := if swap.NoSwap? then 0 else 1;
    if confirm && ConfirmDenied(config, image, slot) then Refused(ConfirmationDenied)
    else if !confirm && slot == 0 then Refused(TestToActiveDenied)
    else match swap
      case Test => if !confirm && slot == next then InForce else Refused(AlreadyPending)
      case Revert => if !confirm then Refused(AlreadyPending) else CarryOut
      case _ =>
        if confirm && slot == next then InForce
        else if (slot == 0 && next != 0) || (!confirm && slot != 0 && slot == next) then Refused(AlreadyPending)
        else CarryOut
  }

  function SetNextBootSlot(d: Device, global: nat, confirm: bool): (r: (Device, ImageError))
    requires global < 2 * |d.images|
    ensures |r.0.images| == |d.images| && r.0.config == d.config && r.0.xip == d.xip
  {
    var image, slot := global / 2, global % 2;
    var pair := d.images[image];
    match Rule(d.config, image, slot, pair.swap, confirm)
    case Refused(error) => (d, error)
    case InForce => (d, Accepted)
    case CarryOut =>
      if slot == 0 then
        if pair.swap.Revert? then
          var kept := d.images[image := pair.(swap := NoSwap, applying := None, committing := None)];
          (d.(images := if image == 0 then StartDeviceCommits(kept) else kept), Accepted)
        else (d, Accepted)
      else if pair.swap.NoSwap? then
        (d.(images := d.images[image := pair.(swap := if confirm then Perm else Test)]), Accepted)
      else (d, Accepted)
  }

  /** The slot a set-state names, or why it names none. */
  function Named(d: Device, hash: Option<Hash>, confirm: bool): (r: Result<nat, ImageError>)
    requires Valid(d)
    ensures r.Ok? ==> r.value < 2 * |d.images|
  {
    if d.config.behaviour.DirectXip? then Err(UnknownError)
    else match hash
      case None => if !confirm then Err(InvalidHash) else Ok(if IsXip(d.config) then d.xip.active else 0)
      case Some(h) => match FindFrom(d, h, 0)
        case None => Err(HashNotFound)
        case Some(slot) => Ok(slot)
  }

  function SetState(d: Device, hash: Option<Hash>, confirm: bool): (r: (Device, ImageError))
    requires Valid(d)
    ensures Valid(r.0) && |r.0.images| == |d.images| && r.0.config == d.config
  {
    match Named(d, hash, confirm)
    case Err(error) => (d, error)
    case Ok(slot) => if IsXip(d.config) then XipSetNext(d, slot, confirm) else SetNextBootSlot(d, slot, confirm)
  }

  // --- Reboot ------------------------------------------------------------------------------------

  /** MCUboot's order of versions: major, minor, revision. */
  predicate VersionLess(a: Tlv.ImageVersion, b: Tlv.ImageVersion) {
    || a.major < b.major
    || (a.major == b.major && a.minor < b.minor)
    || (a.major == b.major && a.minor == b.minor && a.revision < b.revision)
  }

  predicate RefusesDowngrade(config: Config, pair: Pair) {
    config.noDowngrade && |pair.primary| >= Tlv.HEADER_SIZE && |pair.secondary| >= Tlv.HEADER_SIZE
    && VersionLess(Tlv.VersionAt20(pair.secondary), Tlv.VersionAt20(pair.primary))
  }

  /** The pair once a forbidden downgrade has been dropped, or an overwrite carried out; any other pair as it was. */
  function EndWithoutTrial(config: Config, pair: Pair): Pair {
    if !(pair.swap.Test? || pair.swap.Perm?) || pair.device.Some? then pair
    else if RefusesDowngrade(config, pair) then pair.(secondary := [], swap := NoSwap)
    else if config.behaviour.Overwrite? then pair.(primary := pair.secondary, secondary := [], swap := NoSwap)
    else pair
  }

  function RunSwap(pair: Pair): Pair {
    if pair.swap.NoSwap? then pair
    else if pair.swap.Test? then
      if pair.device.Some? then pair.(applying := Some(pair.device.value.applyReads))
      else pair.(primary := pair.secondary, secondary := pair.primary, swap := Revert)
    else Pair(pair.secondary, pair.primary, NoSwap, pair.device, None, None)
  }

  function RebootPair(config: Config, pair: Pair): Pair {
    RunSwap(EndWithoutTrial(config, pair))
  }

  function Reboot(d: Device): (r: Device)
    requires Valid(d)
    ensures Valid(r) && |r.images| == |d.images| && r.config == d.config
  {
    if IsXip(d.config) then XipReboot(d)
    else d.(images := seq(|d.images|, k requires 0 <= k < |d.images| => RebootPair(d.config, d.images[k])))
  }

  // --- Reads -------------------------------------------------------------------------------------

  /** One read's worth of progress of a pair's commit or apply. */
  function AdvancePair(pair: Pair): Pair {
    if pair.committing.Some? then
      if pair.committing.value > 0 then pair.(committing := Some(pair.committing.value - 1))
      else pair.(committing := None, swap := NoSwap)
    else if pair.applying.None? then pair
    else if pair.applying.value > 0 then pair.(applying := Some(pair.applying.value - 1))
    else if pair.device.Some? && pair.device.value.applies then
      pair.(applying := None, primary := pair.secondary, secondary := pair.primary, swap := Revert)
    else pair.(applying := None, swap := NoSwap)
  }

  function AdvanceApplies(d: Device): (r: Device)
    requires Valid(d)
    ensures Valid(r) && |r.images| == |d.images| && r.config == d.config && r.xip == d.xip
  {
    var images := seq(|d.images|, k requires 0 <= k < |d.images| => AdvancePair(d.images[k]));
    d.(images := if images[0].swap.Revert? then images else StartDeviceCommits(images))
  }

  datatype SlotEntry = SlotEntry(
    image: nat, slot: nat, content: Tlv.SlotImage, pending: bool, confirmed: bool, active: bool, permanent: bool)

  /** The flags of a slot, derived from the pair's swap type alone. */
  function Flagged(d: Device, image: nat, slot: nat, content: Tlv.SlotImage): SlotEntry
    requires Valid(d) && image < |d.images|
  {
    var swap := d.images[image].swap;
    if IsXip(d.config) && image == 0 then XipFlags(d, slot, content)
    else if slot == 0 then SlotEntry(image, 0, content, false, !swap.Revert?, true, false)
    else SlotEntry(image, slot, content, swap.Test? || swap.Perm?, swap.Revert?, false, swap.Perm?)
  }

  /** A slot without a valid image is left out. */
  function EntryOf(d: Device, image: nat, slot: nat): seq<SlotEntry>
    requires Valid(d) && image < |d.images| && slot < 2
  {
    match Tlv.Describe(SlotContent(d, 2 * image + slot))
    case None => []
    case Some(content) => [Flagged(d, image, slot, content)]
  }

  function ListingTo(d: Device, images: nat): seq<SlotEntry>
    requires Valid(d) && images <= |d.images|
  {
    if images == 0 then [] else ListingTo(d, images - 1) + EntryOf(d, images - 1, 0) + EntryOf(d, images - 1, 1)
  }

  function Listing(d: Device): seq<SlotEntry>
    requires Valid(d)
  {
    ListingTo(d, |d.images|)
  }

  // --- Direct-XIP --------------------------------------------------------------------------------

  function StateOf(xip: Xip, slot: nat): XipState {
    if slot == 0 then xip.first else xip.second
  }

  function WithState(xip: Xip, slot: nat, state: XipState): Xip {
    if slot == 0 then xip.(first := state) else xip.(second := state)
  }

  predicate PrefersOther(d: Device)
    requires Valid(d)
  {
    var other := 1 - d.xip.active;
    var theirs, ours := SlotContent(d, other), SlotContent(d, d.xip.active);
    && Tlv.Describe(theirs).Some? && Tlv.Describe(theirs).value.bootable
    && (Tlv.Describe(ours).None?
        || VersionLess(Tlv.VersionAt20(ours), Tlv.VersionAt20(theirs))
        || (!VersionLess(Tlv.VersionAt20(theirs), Tlv.VersionAt20(ours)) && other < d.xip.active))
  }

  datatype XipNext = Stay | OtherOnTrial | OtherForGood

  function NextXip(d: Device): XipNext
    requires Valid(d)
  {
    if !PrefersOther(d) then Stay
    else if d.config.behaviour.DirectXip? then OtherForGood
    else match StateOf(d.xip, 1 - d.xip.active)
      case Once => OtherOnTrial
      case Forever => OtherForGood
      case Unset => Stay
  }

  function XipFlags(d: Device, slot: nat, content: Tlv.SlotImage): SlotEntry
    requires Valid(d)
  {
    var active := slot == d.xip.active;
    var next := NextXip(d);
    if d.config.behaviour.DirectXip? then
      SlotEntry(0, slot, content, !active && !next.Stay?, false, active, !active && !next.Stay?)
    else if d.xip.trial then SlotEntry(0, slot, content, false, !active, active, false)
    else if active then SlotEntry(0, slot, content, false, true, true, false)
    else SlotEntry(0, slot, content, !next.Stay?, false, false, next.OtherForGood?)
  }

  function XipReboot(d: Device): (r: Device)
    requires Valid(d)
    ensures Valid(r) && |r.images| == |d.images| && r.config == d.config
  {
    var other := 1 - d.xip.active;
    if d.config.behaviour.DirectXipWithRevert? && d.xip.trial then
      var pair := d.images[0];
      var dropped := if d.xip.active == 0 then pair.(primary := []) else pair.(secondary := []);
      d.(images := d.images[0 := dropped], xip := WithState(d.xip, d.xip.active, Unset).(active := other,
          trial := false))
    else if NextXip(d).Stay? then d
    else d.(xip := d.xip.(active := other, trial := NextXip(d).OtherOnTrial?))
  }

  function XipSetNext(d: Device, global: nat, confirm: bool): (r: (Device, ImageError))
    requires Valid(d)
    ensures Valid(r.0) && r.0.images == d.images && r.0.config == d.config
  {
    var active := global == d.xip.active;
    if global >= 2 then (d, HashNotFound)
    else if confirm && !active && !d.config.confirmNonActive then (d, ConfirmationDenied)
    else if !confirm && active then (d, TestToActiveDenied)
    else if confirm then
      (d.(xip := WithState(d.xip, global, Forever).(trial := if active then false else d.xip.trial)), Accepted)
    else if d.xip.trial || StateOf(d.xip, global).Forever? then (d, AlreadyPending)
    else (d.(xip := WithState(d.xip, global, Once)), Accepted)
  }
}
