/** What a slot table says, row by row: which row runs an image, which holds a file, what is scheduled. */
module UpdateRows {
  import opened Common
  import opened UpdateTypes
  import opened UpdateMachine

  /** Row `k` is the first that runs `image`. */
  predicate RunningRow(t: SlotTable, image: nat, k: nat) {
    && k < |t| && t[k].image == image && t[k].active
    && forall j :: 0 <= j < k ==> t[j].image != image || !t[j].active
  }

  predicate Carries(slot: ImageSlot, target: Target) {
    target.hash != [] && slot.hash == Some(target.hash)
  }

  /** Row `k` is the first of the target's image that carries its file. */
  predicate FileRow(t: SlotTable, target: Target, k: nat) {
    && k < |t| && t[k].image == target.image && Carries(t[k], target)
    && forall j :: 0 <= j < k ==> t[j].image != target.image || !Carries(t[j], target)
  }

  predicate RunsSomething(t: SlotTable, image: nat) {
    exists k :: 0 <= k < |t| && RunningRow(t, image, k)
  }

  predicate RunsFile(t: SlotTable, target: Target) {
    exists k :: 0 <= k < |t| && RunningRow(t, target.image, k) && Carries(t[k], target)
  }

  /** ... and has confirmed it. */
  predicate KeepsFile(t: SlotTable, target: Target) {
    exists k :: 0 <= k < |t| && RunningRow(t, target.image, k) && Carries(t[k], target) && t[k].confirmed
  }

  predicate HoldsFile(t: SlotTable, target: Target) {
    exists k :: 0 <= k < |t| && FileRow(t, target, k)
  }

  /** The file is to be booted next. */
  predicate FileScheduled(t: SlotTable, target: Target) {
    exists k :: 0 <= k < |t| && FileRow(t, target, k) && t[k].pending
  }

  /** Something of this image is to be booted next. */
  predicate ImageScheduled(t: SlotTable, image: nat) {
    exists k :: 0 <= k < |t| && t[k].image == image && t[k].pending
  }

  lemma RunningRowFound(t: SlotTable, image: nat)
    ensures Active(t, image) < |t| ==> RunningRow(t, image, Active(t, image))
    ensures forall k :: 0 <= k && RunningRow(t, image, k) ==> k == Active(t, image)
  {
    var a := Active(t, image);
    assert forall k :: 0 <= k < a ==> !RunningRow(t, image, k);
    assert forall k :: a < k ==> !RunningRow(t, image, k);
  }

  lemma FileRowFound(t: SlotTable, target: Target)
    ensures Holder(t, target) < |t| ==> FileRow(t, target, Holder(t, target))
    ensures forall k :: 0 <= k && FileRow(t, target, k) ==> k == Holder(t, target)
  {
    var h := Holder(t, target);
    assert forall k :: 0 <= k < h ==> !FileRow(t, target, k);
    assert forall k :: h < k ==> !FileRow(t, target, k);
  }

  /** What the machine reads off a table is what its rows say. */
  lemma RowsRead(t: SlotTable, target: Target)
    ensures Runs(t, target) <==> RunsFile(t, target)
    ensures Keeps(t, target) <==> KeepsFile(t, target)
    ensures Active(t, target.image) == |t| <==> !RunsSomething(t, target.image)
    ensures Holder(t, target) < |t| <==> HoldsFile(t, target)
    ensures Holder(t, target) < |t| && t[Holder(t, target)].pending <==> FileScheduled(t, target)
    ensures AnythingPending(t, target.image) <==> ImageScheduled(t, target.image)
  {
    RunningRowFound(t, target.image);
    FileRowFound(t, target);
    RowsBound(t, target);
    hide Active, Holder, RunningRow, FileRow;
  }

  lemma RowsBound(t: SlotTable, target: Target)
    ensures Active(t, target.image) <= |t| && Holder(t, target) <= |t|
  {
  }
}
