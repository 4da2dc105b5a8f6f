/**
 * The `deletions` list of a fiber, as the source handles it and as the rest
 * of this model handles it.
 *
 * As written, a new `FiberNode` never assigns `deletions`, so the slot reads
 * as `undefined`; `deleteChild` only starts a list on `null`, and pushes
 * onto anything else. The first deletion a tracking diff records therefore
 * throws. With the slot initialised to null (what `NewFiber` does), a second
 * defect shows: a recycled twin keeps the list of the render that last used
 * it, so the next deletion is appended to that stale list and never sets
 * `ChildDeletion`, which is what the commit phase looks at.
 */
module DeletionFindings {
  import opened JsValues
  import opened Fibers
  import opened ChildFibers

  /** The three states the slot can be in when read from JavaScript. */
  datatype Slot = Unset | NullSlot | Items(ids: seq<FiberId>)

  /** The slot a fiber record of this model stands for. */
  function SlotOf(deletions: Option<seq<FiberId>>): (s: Slot)
    ensures s.Unset? == false
    ensures s.NullSlot? <==> deletions.None?
  {
    if deletions.None? then NullSlot else Items(deletions.value)
  }

  /** Result of `deleteChild` on a tracking diff: the new slot and flags, or a thrown `TypeError`. */
  datatype Recording = Done(slot: Slot, flags: Flags) | TypeError

  /** `deleteChild` as written, on the slot it finds. */
  function DeleteChildAsWritten(slot: Slot, flags: Flags, child: FiberId): (r: Recording)
    ensures r.TypeError? <==> slot.Unset?
    ensures slot.NullSlot? ==> r == Done(Items([child]), flags + {ChildDeletion})
    ensures slot.Items? ==> r == Done(Items(slot.ids + [child]), flags)
  {
    match slot
    case NullSlot => Done(Items([child]), flags + {ChildDeletion})
    case Items(ids) => Done(Items(ids + [child]), flags)
    case Unset => TypeError
  }

  /** The slot of a freshly constructed `FiberNode` as written: never assigned. */
  const ConstructedSlot: Slot := Unset

  /**
   * As written, the first deletion recorded on any fiber straight out of the
   * constructor throws: there is no list to push onto.
   */
  lemma FirstDeletionThrows(child: FiberId)
    ensures DeleteChildAsWritten(ConstructedSlot, NoFlags, child) == TypeError
  {
  }

  /**
   * On every slot the model can hold, `RecordDeletion` is exactly the
   * as-written `deleteChild`: the two differ only on the unset slot the
   * corrected constructor never produces.
   */
  lemma RecordDeletionIsDeleteChild(f: Fiber, child: FiberId)
    ensures DeleteChildAsWritten(SlotOf(f.deletions), f.flags, child)
         == Done(SlotOf(RecordDeletion(f, child).deletions), RecordDeletion(f, child).flags)
  {
  }

  /** With the slot initialised to null, a new fiber records its first deletion and is flagged. */
  lemma FirstDeletionRecorded(tag: WorkTag, pendingProps: Value, key: Value, child: FiberId)
    ensures var g := RecordDeletion(NewFiber(tag, pendingProps, key), child);
      g.deletions == Some([child]) && g.flags == {ChildDeletion}
  {
  }

  /**
   * As written, a twin recycled by `createWorkInProgress` still holds the
   * list it got in an earlier render; the next deletion is appended to that
   * list and `ChildDeletion` stays off, so the commit phase never removes the
   * deleted child.
   */
  lemma StaleDeletionsHideDeletion(a: Arena, freshId: FiberId, current: FiberId, pendingProps: Value, child: FiberId)
    requires current in a && freshId !in a && OptIn(a[current].alternate, a)
    requires a[current].alternate.Some? && a[a[current].alternate.value].deletions.Some?
    ensures var (b, w) := WorkInProgressAsWritten(a, freshId, current, pendingProps);
      var g := RecordDeletion(b[w], child);
      && ChildDeletion !in g.flags
      && g.deletions == Some(a[w].deletions.value + [child])
  {
    var (b, w) := WorkInProgressAsWritten(a, freshId, current, pendingProps);
    assert b[w].flags == NoFlags;
  }

  /** A concrete instance: the root's twin kept `[5]` from render 2; render 4 deletes fiber 7. */
  lemma StaleDeletionsExample()
    ensures var current := NewFiber(HostRoot, Null, Null).(alternate := Some(1));
      var twin := NewFiber(HostRoot, Null, Null).(alternate := Some(0), deletions := Some([5]));
      var a := map[0 := current, 1 := twin];
      var (b, w) := WorkInProgressAsWritten(a, 2, 0, Null);
      var g := RecordDeletion(b[w], 7);
      w == 1 && g.deletions == Some([5, 7]) && g.flags == NoFlags
  {
    var current := NewFiber(HostRoot, Null, Null).(alternate := Some(1));
    var twin := NewFiber(HostRoot, Null, Null).(alternate := Some(0), deletions := Some([5]));
    var a := map[0 := current, 1 := twin];
    StaleDeletionsHideDeletion(a, 2, 0, Null, 7);
    var (b, w) := WorkInProgressAsWritten(a, 2, 0, Null);
    assert w == 1 && b[w].flags == NoFlags;
    assert [5] + [7] == [5, 7];
  }

  /**
   * With the reset, every work-in-progress fiber starts the render with no
   * list: its first deletion starts a new one and sets `ChildDeletion`.
   */
  lemma FreshDeletionsShowDeletion(a: Arena, freshId: FiberId, current: FiberId, pendingProps: Value, child: FiberId)
    requires current in a && freshId !in a && OptIn(a[current].alternate, a)
    ensures var (b, w) := WorkInProgress(a, freshId, current, pendingProps);
      var g := RecordDeletion(b[w], child);
      && ChildDeletion in g.flags
      && g.deletions == Some([child])
  {
    WorkInProgressFields(a, freshId, current, pendingProps);
  }
}
