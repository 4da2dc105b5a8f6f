/**
 * The child reconciler: diffing one new child (an element, or a string or
 * number) against the old sibling chain of children. `track` selects the
 * tracking variant (`reconcileChildFibers`, used on update) or the
 * non-tracking one (`mountChildFibers`, used on mount).
 */
module ChildFibers {
  import opened JsValues
  import opened Fibers
  import opened Jsx

  /** The deletion list of a fiber, a null list read as empty. */
  function Recorded(f: Fiber): seq<FiberId> {
    if f.deletions.None? then [] else f.deletions.value
  }

  /** Recording one child for deletion on its parent's record. */
  function RecordDeletion(f: Fiber, child: FiberId): (g: Fiber)
    ensures g.deletions == Some(Recorded(f) + [child])
    ensures g.flags == if f.deletions.None? then f.flags + {ChildDeletion} else f.flags
    ensures g == f.(deletions := g.deletions, flags := g.flags)
  {
    if f.deletions.None? then
      assert Recorded(f) + [child] == [child];
      f.(deletions := Some([child]), flags := f.flags + {ChildDeletion})
    else f.(deletions := Some(f.deletions.value + [child]))
  }

  /**
   * Recording several children one after the other: they are appended in
   * order, and `ChildDeletion` is set by the first one only.
   */
  function RecordDeletions(f: Fiber, children: seq<FiberId>): (g: Fiber)
    ensures children == [] ==> g == f
    ensures children != [] ==> g.deletions == Some(Recorded(f) + children)
    ensures g.flags == if f.deletions.None? && children != [] then f.flags + {ChildDeletion} else f.flags
    ensures g == f.(deletions := g.deletions, flags := g.flags)
    decreases |children|
  {
    if children == [] then f
    else
      var init := children[..|children| - 1];
      var last := children[|children| - 1];
      assert children == init + [last];
      var g := RecordDeletions(f, init);
      assert Recorded(g) + [last] == Recorded(f) + children by {
        if init != [] {
          assert Recorded(g) == Recorded(f) + init;
        }
      }
      RecordDeletion(g, last)
  }

  /** Recording `xs` and then `ys` is recording `xs + ys`. */
  lemma RecordDeletionsAppend(f: Fiber, xs: seq<FiberId>, ys: seq<FiberId>)
    ensures RecordDeletions(RecordDeletions(f, xs), ys) == RecordDeletions(f, xs + ys)
  {
    var g := RecordDeletions(f, xs);
    if ys == [] {
      assert xs + ys == xs;
    } else if xs == [] {
      assert xs + ys == ys;
    } else {
      assert Recorded(g) == Recorded(f) + xs;
      assert Recorded(g) + ys == Recorded(f) + (xs + ys);
    }
  }

  /** Recording one child on the arena record of `returnFiber`. */
  lemma RecordKeepsSiblings(a: Arena, rank: map<FiberId, nat>, returnFiber: FiberId, f: Fiber, first: Option<FiberId>)
    requires SiblingRanked(a, rank) && returnFiber in a && OptIn(first, a)
    requires f.sibling == a[returnFiber].sibling
    ensures SiblingRanked(a[returnFiber := f], rank)
    ensures ChainOf(a[returnFiber := f], rank, first) == ChainOf(a, rank, first)
  {
    SameSiblings(a, a[returnFiber := f], rank, first);
  }

  /** `deleteChild`: records `childToDelete` on the parent when tracking; the non-tracking variant changes nothing. */
  method DeleteChild(r: Renderer, track: bool, returnFiber: FiberId, childToDelete: FiberId)
    requires r.Valid() && returnFiber in r.fibers && childToDelete in r.fibers
    modifies r
    ensures r.Valid()
    ensures r.fibers == if track then old(r.fibers)[returnFiber := RecordDeletion(old(r.fibers)[returnFiber], childToDelete)]
                        else old(r.fibers)
    ensures r.nextFiber == old(r.nextFiber) && r.sibRank == old(r.sibRank)
    ensures r.Rest() == old(r.Rest()) && r.log == old(r.log)
  {
    if !track {
      return;
    }
    r.SetFiber(returnFiber, RecordDeletion(r.fibers[returnFiber], childToDelete));
  }

  /** Recording one more position of `chain`. */
  lemma RecordDeletionsSnoc(f: Fiber, chain: seq<FiberId>, i: nat)
    requires i < |chain|
    ensures RecordDeletions(f, chain[..i + 1]) == RecordDeletion(RecordDeletions(f, chain[..i]), chain[i])
  {
    assert chain[..i + 1][..i] == chain[..i];
  }

  /** Recording fibers of the arena keeps a record's links inside it. */
  lemma RecordedOk(a: Arena, f: Fiber, children: seq<FiberId>, hooks: map<HookId, Hook>, queues: map<QueueId, UpdateQueue>)
    requires FiberOk(a, f, hooks, queues) && forall c :: c in children ==> c in a
    ensures FiberOk(a, RecordDeletions(f, children), hooks, queues)
  {
    var g := RecordDeletions(f, children);
    if children != [] {
      assert forall d :: d in g.deletions.value ==> d in Recorded(f) || d in children;
    }
  }

  /**
   * The walk of `deleteRemainingChildren`: the parent's record after
   * `deleteChild` has recorded every fiber of the sibling chain from
   * `currentFirstChild`, in chain order. The parent's record is the only one
   * `deleteChild` writes and it never touches `sibling`, so the walk reads
   * the same links whether the record is stored after every step or once at
   * the end.
   */
  method CollectDeletions(r: Renderer, returnFiber: FiberId, currentFirstChild: Option<FiberId>) returns (parent: Fiber)
    requires r.Valid() && returnFiber in r.fibers && OptIn(currentFirstChild, r.fibers)
    ensures parent == RecordDeletions(r.fibers[returnFiber], ChainOf(r.fibers, r.sibRank, currentFirstChild))
  {
    ghost var chain := ChainOf(r.fibers, r.sibRank, currentFirstChild);
    parent := r.fibers[returnFiber];
    var childToDelete := currentFirstChild;
    ghost var i := 0;
    while childToDelete.Some?
      invariant i <= |chain|
      invariant childToDelete == if i < |chain| then Some(chain[i]) else None
      invariant parent == RecordDeletions(r.fibers[returnFiber], chain[..i])
      decreases |chain| - i
    {
      assert LinkAt(r.fibers, chain, i);
      parent := RecordDeletion(parent, childToDelete.value);
      RecordDeletionsSnoc(r.fibers[returnFiber], chain, i);
      childToDelete := r.fibers[childToDelete.value].sibling;
      i := i + 1;
    }
    assert chain[..i] == chain;
  }

  /**
   * `deleteRemainingChildren`: when tracking, records the whole sibling chain
   * starting at `currentFirstChild`, in chain order.
   */
  method DeleteRemainingChildren(r: Renderer, track: bool, returnFiber: FiberId, currentFirstChild: Option<FiberId>)
    requires r.Valid() && returnFiber in r.fibers && OptIn(currentFirstChild, r.fibers)
    modifies r
    ensures r.Valid()
    ensures r.fibers == if track then old(r.fibers)[returnFiber := RecordDeletions(old(r.fibers)[returnFiber],
                                                    ChainOf(old(r.fibers), old(r.sibRank), currentFirstChild))]
                        else old(r.fibers)
    ensures r.nextFiber == old(r.nextFiber) && r.sibRank == old(r.sibRank)
    ensures r.Rest() == old(r.Rest()) && r.log == old(r.log)
  {
    if !track {
      return;
    }
    var parent := CollectDeletions(r, returnFiber, currentFirstChild);
    RecordedOk(r.fibers, r.fibers[returnFiber], ChainOf(r.fibers, r.sibRank, currentFirstChild), r.hooks, r.queues);
    r.SetFiber(returnFiber, parent);
  }

  /** `useFiber` on arena values: the twin of `fiber` with `index` 0 and no sibling. */
  function Reused(a: Arena, freshId: FiberId, fiber: FiberId, pendingProps: Value): (res: (Arena, FiberId))
    requires fiber in a && freshId !in a && OptIn(a[fiber].alternate, a)
    ensures res.1 == if a[fiber].alternate.Some? then a[fiber].alternate.value else freshId
    ensures res.1 in res.0 && res.0.Keys == a.Keys + {res.1}
    ensures res.0[res.1].index == 0 && res.0[res.1].sibling.None? && res.0[res.1].pendingProps == pendingProps
  {
    var (b, w) := WorkInProgress(a, freshId, fiber, pendingProps);
    WorkInProgressFields(a, freshId, fiber, pendingProps);
    (b[w := b[w].(index := 0, sibling := None)], w)
  }

  /** `useFiber`: reuses the twin of `fiber` as a single child. */
  method UseFiber(r: Renderer, fiber: FiberId, pendingProps: Value) returns (clone: FiberId)
    requires r.Valid() && fiber in r.fibers
    modifies r
    ensures r.Valid()
    ensures (r.fibers, clone) == Reused(old(r.fibers), old(r.nextFiber), fiber, pendingProps)
    ensures r.Rest() == old(r.Rest()) && r.log == old(r.log)
  {
    clone := CreateWorkInProgress(r, fiber, pendingProps);
    r.SetFiber(clone, r.fibers[clone].(index := 0, sibling := None));
  }

  /**
   * `placeSingleChild` on arena values: `Placement` is added exactly when
   * tracking and the fiber has no twin; nothing else changes.
   */
  function Placed(a: Arena, track: bool, fiber: FiberId): (b: Arena)
    requires fiber in a
    ensures b.Keys == a.Keys
    ensures b[fiber].flags == if track && a[fiber].alternate.None? then a[fiber].flags + {Placement} else a[fiber].flags
    ensures b[fiber] == a[fiber].(flags := b[fiber].flags)
    ensures forall id :: id in a && id != fiber ==> b[id] == a[id]
  {
    if track && a[fiber].alternate.None? then a[fiber := a[fiber].(flags := a[fiber].flags + {Placement})] else a
  }

  /** `placeSingleChild`. */
  method PlaceSingleChild(r: Renderer, track: bool, fiber: FiberId) returns (placed: FiberId)
    requires r.Valid() && fiber in r.fibers
    modifies r
    ensures r.Valid() && placed == fiber
    ensures r.fibers == Placed(old(r.fibers), track, fiber)
    ensures r.nextFiber == old(r.nextFiber) && r.sibRank == old(r.sibRank)
    ensures r.Rest() == old(r.Rest()) && r.log == old(r.log)
  {
    if track && r.fibers[fiber].alternate.None? {
      r.SetFiber(fiber, r.fibers[fiber].(flags := r.fibers[fiber].flags + {Placement}));
    }
    placed := fiber;
  }

  /** Every `alternate` link of the arena names a fiber of the arena. */
  ghost predicate AlternatesIn(a: Arena) {
    forall id :: id in a ==> OptIn(a[id].alternate, a)
  }

  /** What a scan over old children needs of the arena. */
  ghost predicate ScanOk(a: Arena, rank: map<FiberId, nat>, freshId: FiberId, returnFiber: FiberId) {
    SiblingRanked(a, rank) && returnFiber in a && freshId !in a && AlternatesIn(a)
  }

  lemma ValidScanOk(r: Renderer)
    requires r.Valid()
    ensures forall rf :: rf in r.fibers ==> ScanOk(r.fibers, r.sibRank, r.nextFiber, rf)
  {
    forall id | id in r.fibers
      ensures OptIn(r.fibers[id].alternate, r.fibers)
    {
      assert FiberOk(r.fibers, r.fibers[id], r.hooks, r.queues);
    }
  }

  /** `deleteChild` on arena values. */
  function DeleteOne(a: Arena, track: bool, returnFiber: FiberId, child: FiberId): Arena
    requires returnFiber in a
  {
    if track then a[returnFiber := RecordDeletion(a[returnFiber], child)] else a
  }

  /** `deleteRemainingChildren` on arena values. */
  ghost function DeleteRest(a: Arena, rank: map<FiberId, nat>, track: bool, returnFiber: FiberId, first: Option<FiberId>): Arena
    requires SiblingRanked(a, rank) && returnFiber in a && OptIn(first, a)
    ensures DeleteRest(a, rank, track, returnFiber, first).Keys == a.Keys
  {
    if track then a[returnFiber := RecordDeletions(a[returnFiber], ChainOf(a, rank, first))] else a
  }

  lemma DeleteOneKeepsScanOk(a: Arena, rank: map<FiberId, nat>, freshId: FiberId, track: bool, returnFiber: FiberId,
                             child: FiberId, first: Option<FiberId>)
    requires ScanOk(a, rank, freshId, returnFiber) && OptIn(first, a)
    ensures ScanOk(DeleteOne(a, track, returnFiber, child), rank, freshId, returnFiber)
    ensures ChainOf(DeleteOne(a, track, returnFiber, child), rank, first) == ChainOf(a, rank, first)
  {
    if track {
      RecordKeepsSiblings(a, rank, returnFiber, RecordDeletion(a[returnFiber], child), first);
    }
  }

  /** `deleteChild` on the parent's record alone. */
  function DeletedOn(track: bool, f: Fiber, child: FiberId): (g: Fiber)
    ensures g == f.(deletions := g.deletions, flags := g.flags)
  {
    if track then RecordDeletion(f, child) else f
  }

  /**
   * One `deleteChild` of a walk that keeps the parent's record aside: storing
   * the new record gives the arena `deleteChild` leaves.
   */
  lemma DeleteOnRecord(a: Arena, rank: map<FiberId, nat>, freshId: FiberId, track: bool, returnFiber: FiberId,
                       parent: Fiber, c: FiberId, hooks: map<HookId, Hook>, queues: map<QueueId, UpdateQueue>)
    requires returnFiber in a && c in a && ScanOk(a[returnFiber := parent], rank, freshId, returnFiber)
    requires parent == a[returnFiber].(deletions := parent.deletions, flags := parent.flags)
    requires FiberOk(a, parent, hooks, queues)
    ensures DeleteOne(a[returnFiber := parent], track, returnFiber, c) == a[returnFiber := DeletedOn(track, parent, c)]
    ensures ScanOk(a[returnFiber := DeletedOn(track, parent, c)], rank, freshId, returnFiber)
    ensures FiberOk(a, DeletedOn(track, parent, c), hooks, queues)
  {
    var a' := a[returnFiber := parent];
    DeleteOneKeepsScanOk(a', rank, freshId, track, returnFiber, c, None);
    if track {
      var g := RecordDeletion(parent, c);
      assert a'[returnFiber := g] == a[returnFiber := g];
      assert forall d :: d in g.deletions.value ==> d in Recorded(parent) || d == c;
    }
  }

  /** Attaching the reused twin keeps a ranking in which the twin (now without sibling) has rank 0. */
  lemma ReusedRanked(a: Arena, rank: map<FiberId, nat>, freshId: FiberId, c: FiberId, props: Value, returnFiber: FiberId)
    requires ScanOk(a, rank, freshId, returnFiber) && c in a
    ensures var (b, w) := Reused(a, freshId, c, props);
      var b2 := b[w := b[w].(ret := Some(returnFiber))];
      && SiblingRanked(b2, rank[w := 0]) && returnFiber in b2 && c in b2
      && (forall id :: id in a && id != w ==> b2[id].sibling == a[id].sibling)
  {
    var (b, w) := Reused(a, freshId, c, props);
    WorkInProgressFields(a, freshId, c, props);
    var b2 := b[w := b[w].(ret := Some(returnFiber))];
    forall id | id in a && id != w
      ensures b2[id].sibling == a[id].sibling
    {
    }
  }

  /**
   * Reusing the old fiber `c` with new props: its twin, attached to the
   * parent, after which the old siblings following `c` are deleted.
   */
  ghost function ReuseStep(a: Arena, rank: map<FiberId, nat>, freshId: FiberId, track: bool, returnFiber: FiberId,
                           c: FiberId, props: Value): (res: (Arena, FiberId))
    requires ScanOk(a, rank, freshId, returnFiber) && c in a
    ensures res.1 in res.0 && res.0.Keys == a.Keys + {res.1}
  {
    ReusedRanked(a, rank, freshId, c, props, returnFiber);
    var (b, w) := Reused(a, freshId, c, props);
    var b2 := b[w := b[w].(ret := Some(returnFiber))];
    (DeleteRest(b2, rank[w := 0], track, returnFiber, b2[c].sibling), w)
  }

  /** The reuse step of both single-child diffs: `useFiber`, attach, delete the rest. */
  method ReuseOld(r: Renderer, track: bool, returnFiber: FiberId, c: FiberId, props: Value) returns (existing: FiberId)
    requires r.Valid() && returnFiber in r.fibers && c in r.fibers
    modifies r
    ensures r.Valid()
    ensures ScanOk(old(r.fibers), old(r.sibRank), old(r.nextFiber), returnFiber)
    ensures (r.fibers, existing) == ReuseStep(old(r.fibers), old(r.sibRank), old(r.nextFiber), track, returnFiber, c, props)
    ensures r.Rest() == old(r.Rest()) && r.log == old(r.log)
  {
    ValidScanOk(r);
    ghost var rank := r.sibRank;
    ReusedRanked(r.fibers, rank, r.nextFiber, c, props, returnFiber);
    existing := UseFiber(r, c, props);
    r.SetFiber(existing, r.fibers[existing].(ret := Some(returnFiber)));
    ChainOfRankFree(r.fibers, r.sibRank, rank[existing := 0], r.fibers[c].sibling);
    DeleteRemainingChildren(r, track, returnFiber, r.fibers[c].sibling);
  }

  /** The fiber created for a new element: `createFiberFromElement` attached to the parent. */
  function Created(element: Value, returnFiber: FiberId): Fiber {
    FiberFromElement(element).(ret := Some(returnFiber))
  }

  /** `createFiberFromElement` followed by `fiber.return = returnFiber`. */
  method CreateAttached(r: Renderer, returnFiber: FiberId, element: Value) returns (fiber: FiberId)
    requires r.Valid() && returnFiber in r.fibers
    modifies r
    ensures r.Valid()
    ensures fiber == old(r.nextFiber) && r.fibers == old(r.fibers)[fiber := Created(element, returnFiber)]
    ensures r.Rest() == old(r.Rest()) && r.log == old(r.log)
  {
    fiber := CreateFiberFromElement(r, element);
    r.SetFiber(fiber, r.fibers[fiber].(ret := Some(returnFiber)));
    assert r.fibers == old(r.fibers)[fiber := Created(element, returnFiber)];
  }

  /**
   * `reconcileSingleElement` on arena values, one loop turn per recursive
   * call: the scan is at the old fiber `current`.
   */
  ghost function ElementScan(a: Arena, rank: map<FiberId, nat>, freshId: FiberId, track: bool,
                             returnFiber: FiberId, current: Option<FiberId>, element: Value): (res: (Arena, FiberId))
    requires ScanOk(a, rank, freshId, returnFiber) && OptIn(current, a)
    ensures res.1 in res.0 && res.0.Keys == a.Keys + {res.1}
    decreases if current.Some? then rank[current.value] + 1 else 0
  {
    if current.None? then
      (a[freshId := Created(element, returnFiber)], freshId)
    else
      var c := current.value;
      if a[c].key == Get(element, "key") then
        if a[c].fiberType == Get(element, "type") then
          ReuseStep(a, rank, freshId, track, returnFiber, c, Get(element, "props"))
        else
          var b := DeleteRest(a, rank, track, returnFiber, current);
          (b[freshId := Created(element, returnFiber)], freshId)
      else
        DeleteOneKeepsScanOk(a, rank, freshId, track, returnFiber, c, a[c].sibling);
        ElementScan(DeleteOne(a, track, returnFiber, c), rank, freshId, track, returnFiber, a[c].sibling, element)
  }

  /** One loop turn that passes over an old fiber with another key. */
  lemma ElementScanSkip(a: Arena, rank: map<FiberId, nat>, freshId: FiberId, track: bool,
                        returnFiber: FiberId, c: FiberId, element: Value)
    requires ScanOk(a, rank, freshId, returnFiber) && c in a && a[c].key != Get(element, "key")
    ensures var a' := DeleteOne(a, track, returnFiber, c);
      && ScanOk(a', rank, freshId, returnFiber) && OptIn(a[c].sibling, a')
      && ChainOf(a, rank, Some(c)) == [c] + ChainOf(a', rank, a[c].sibling)
      && ElementScan(a, rank, freshId, track, returnFiber, Some(c), element)
         == ElementScan(a', rank, freshId, track, returnFiber, a[c].sibling, element)
  {
    DeleteOneKeepsScanOk(a, rank, freshId, track, returnFiber, c, a[c].sibling);
  }

  /**
   * The walk of `reconcileSingleElement` up to the first old fiber with the
   * element's key: `deleteChild` records each fiber passed over on the
   * parent. The parent's record is kept aside and stored once by the caller;
   * `deleteChild` writes nothing the walk reads, so this is the same walk.
   */
  method SkipToKey(r: Renderer, track: bool, returnFiber: FiberId, currentFiber: Option<FiberId>, element: Value)
    returns (parent: Fiber, found: Option<FiberId>)
    requires r.Valid() && returnFiber in r.fibers && OptIn(currentFiber, r.fibers)
    ensures parent == r.fibers[returnFiber].(deletions := parent.deletions, flags := parent.flags)
    ensures FiberOk(r.fibers, parent, r.hooks, r.queues)
    ensures ScanOk(r.fibers, r.sibRank, r.nextFiber, returnFiber)
    ensures ScanOk(r.fibers[returnFiber := parent], r.sibRank, r.nextFiber, returnFiber)
    ensures OptIn(found, r.fibers) && (found.Some? ==> r.fibers[found.value].key == Get(element, "key"))
    ensures ElementScan(r.fibers[returnFiber := parent], r.sibRank, r.nextFiber, track, returnFiber, found, element)
         == ElementScan(r.fibers, r.sibRank, r.nextFiber, track, returnFiber, currentFiber, element)
  {
    ValidScanOk(r);
    var key := Get(element, "key");
    parent := r.fibers[returnFiber];
    assert r.fibers[returnFiber := parent] == r.fibers;
    found := currentFiber;
    while found.Some? && r.fibers[found.value].key != key
      invariant OptIn(found, r.fibers)
      invariant parent == r.fibers[returnFiber].(deletions := parent.deletions, flags := parent.flags)
      invariant FiberOk(r.fibers, parent, r.hooks, r.queues)
      invariant ScanOk(r.fibers[returnFiber := parent], r.sibRank, r.nextFiber, returnFiber)
      invariant ElementScan(r.fibers[returnFiber := parent], r.sibRank, r.nextFiber, track, returnFiber, found, element)
             == ElementScan(r.fibers, r.sibRank, r.nextFiber, track, returnFiber, currentFiber, element)
      decreases if found.Some? then r.sibRank[found.value] + 1 else 0
    {
      var c := found.value;
      ElementScanSkip(r.fibers[returnFiber := parent], r.sibRank, r.nextFiber, track, returnFiber, c, element);
      DeleteOnRecord(r.fibers, r.sibRank, r.nextFiber, track, returnFiber, parent, c, r.hooks, r.queues);
      parent := DeletedOn(track, parent, c);
      found := r.fibers[c].sibling;
    }
  }

  /**
   * `reconcileSingleElement`: walks the old chain from `currentFiber`; the
   * first fiber with the element's key is reused when its type matches too
   * (the rest of the chain is deleted), otherwise it and the rest are deleted
   * and a new fiber is created; fibers with another key are deleted one by
   * one. `element` is an element (the caller checked its `$$typeof`).
   */
  method ReconcileSingleElement(r: Renderer, track: bool, returnFiber: FiberId, currentFiber: Option<FiberId>,
                                element: Value) returns (fiber: FiberId)
    requires r.Valid() && returnFiber in r.fibers && OptIn(currentFiber, r.fibers) && IsValidElement(element)
    modifies r
    ensures r.Valid()
    ensures ScanOk(old(r.fibers), old(r.sibRank), old(r.nextFiber), returnFiber)
    ensures (r.fibers, fiber) == ElementScan(old(r.fibers), old(r.sibRank), old(r.nextFiber), track, returnFiber,
                                             currentFiber, element)
    ensures r.Rest() == old(r.Rest()) && r.log == old(r.log)
  {
    var parent, found := SkipToKey(r, track, returnFiber, currentFiber, element);
    r.SetFiber(returnFiber, parent);
    if found.Some? {
      var c := found.value;
      if r.fibers[c].fiberType == Get(element, "type") {
        fiber := ReuseOld(r, track, returnFiber, c, Get(element, "props"));
        return;
      }
      DeleteRemainingChildren(r, track, returnFiber, found);
    }
    fiber := CreateAttached(r, returnFiber, element);
  }

  /** The props `{content}` of a text fiber. */
  function TextProps(content: Value): (p: Value)
    ensures Get(p, "content") == content
  {
    Obj(map["content" := content])
  }

  /** The fiber created for new text: `new FiberNode(HostText, {content}, null)` attached to the parent. */
  function CreatedText(content: Value, returnFiber: FiberId): Fiber {
    NewFiber(HostText, TextProps(content), Null).(ret := Some(returnFiber))
  }

  /**
   * `reconcileSingleTextNode` on arena values, one loop turn per recursive
   * call: the first old `HostText` fiber is reused whatever its key.
   */
  ghost function TextScan(a: Arena, rank: map<FiberId, nat>, freshId: FiberId, track: bool,
                          returnFiber: FiberId, current: Option<FiberId>, content: Value): (res: (Arena, FiberId))
    requires ScanOk(a, rank, freshId, returnFiber) && OptIn(current, a)
    ensures res.1 in res.0 && res.0.Keys == a.Keys + {res.1}
    decreases if current.Some? then rank[current.value] + 1 else 0
  {
    if current.None? then
      (a[freshId := CreatedText(content, returnFiber)], freshId)
    else
      var c := current.value;
      if a[c].tag == HostText then
        ReuseStep(a, rank, freshId, track, returnFiber, c, TextProps(content))
      else
        DeleteOneKeepsScanOk(a, rank, freshId, track, returnFiber, c, a[c].sibling);
        TextScan(DeleteOne(a, track, returnFiber, c), rank, freshId, track, returnFiber, a[c].sibling, content)
  }

  /** One turn of the text scan past a fiber that is not text. */
  lemma TextScanSkip(a: Arena, rank: map<FiberId, nat>, freshId: FiberId, track: bool, returnFiber: FiberId,
                     c: FiberId, content: Value)
    requires ScanOk(a, rank, freshId, returnFiber) && c in a && a[c].tag != HostText
    ensures ScanOk(DeleteOne(a, track, returnFiber, c), rank, freshId, returnFiber)
    ensures OptIn(a[c].sibling, DeleteOne(a, track, returnFiber, c))
    ensures TextScan(DeleteOne(a, track, returnFiber, c), rank, freshId, track, returnFiber, a[c].sibling, content)
         == TextScan(a, rank, freshId, track, returnFiber, Some(c), content)
  {
    DeleteOneKeepsScanOk(a, rank, freshId, track, returnFiber, c, a[c].sibling);
  }

  /** `new FiberNode(HostText, {content}, null)` followed by `fiber.return = returnFiber`. */
  method CreateAttachedText(r: Renderer, returnFiber: FiberId, content: Value) returns (fiber: FiberId)
    requires r.Valid() && returnFiber in r.fibers
    modifies r
    ensures r.Valid()
    ensures fiber == old(r.nextFiber) && r.fibers == old(r.fibers)[fiber := CreatedText(content, returnFiber)]
    ensures r.Rest() == old(r.Rest()) && r.log == old(r.log)
  {
    fiber := CreateFiber(r, HostText, TextProps(content), Null);
    r.SetFiber(fiber, r.fibers[fiber].(ret := Some(returnFiber)));
    assert r.fibers == old(r.fibers)[fiber := CreatedText(content, returnFiber)];
  }

  /**
   * The walk of `reconcileSingleTextNode` up to the first old text fiber:
   * `deleteChild` records each fiber passed over on the parent. The parent's
   * record is kept aside and stored once by the caller; `deleteChild` writes
   * nothing the walk reads, so this is the same walk.
   */
  method SkipToText(r: Renderer, track: bool, returnFiber: FiberId, currentFiber: Option<FiberId>, ghost content: Value)
    returns (parent: Fiber, found: Option<FiberId>)
    requires r.Valid() && returnFiber in r.fibers && OptIn(currentFiber, r.fibers)
    ensures parent == r.fibers[returnFiber].(deletions := parent.deletions, flags := parent.flags)
    ensures FiberOk(r.fibers, parent, r.hooks, r.queues)
    ensures ScanOk(r.fibers, r.sibRank, r.nextFiber, returnFiber)
    ensures ScanOk(r.fibers[returnFiber := parent], r.sibRank, r.nextFiber, returnFiber)
    ensures OptIn(found, r.fibers) && (found.Some? ==> r.fibers[found.value].tag == HostText)
    ensures TextScan(r.fibers[returnFiber := parent], r.sibRank, r.nextFiber, track, returnFiber, found, content)
         == TextScan(r.fibers, r.sibRank, r.nextFiber, track, returnFiber, currentFiber, content)
  {
    ValidScanOk(r);
    parent := r.fibers[returnFiber];
    assert r.fibers[returnFiber := parent] == r.fibers;
    found := currentFiber;
    while found.Some? && r.fibers[found.value].tag != HostText
      invariant OptIn(found, r.fibers)
      invariant parent == r.fibers[returnFiber].(deletions := parent.deletions, flags := parent.flags)
      invariant FiberOk(r.fibers, parent, r.hooks, r.queues)
      invariant ScanOk(r.fibers[returnFiber := parent], r.sibRank, r.nextFiber, returnFiber)
      invariant TextScan(r.fibers[returnFiber := parent], r.sibRank, r.nextFiber, track, returnFiber, found, content)
             == TextScan(r.fibers, r.sibRank, r.nextFiber, track, returnFiber, currentFiber, content)
      decreases if found.Some? then r.sibRank[found.value] + 1 else 0
    {
      var c := found.value;
      TextScanSkip(r.fibers[returnFiber := parent], r.sibRank, r.nextFiber, track, returnFiber, c, content);
      DeleteOnRecord(r.fibers, r.sibRank, r.nextFiber, track, returnFiber, parent, c, r.hooks, r.queues);
      parent := DeletedOn(track, parent, c);
      found := r.fibers[c].sibling;
    }
  }

  /** `reconcileSingleTextNode`: reuses the first old text fiber, deleting the fibers before it and after it. */
  method ReconcileSingleTextNode(r: Renderer, track: bool, returnFiber: FiberId, currentFiber: Option<FiberId>,
                                 content: Value) returns (fiber: FiberId)
    requires r.Valid() && returnFiber in r.fibers && OptIn(currentFiber, r.fibers)
    modifies r
    ensures r.Valid()
    ensures ScanOk(old(r.fibers), old(r.sibRank), old(r.nextFiber), returnFiber)
    ensures (r.fibers, fiber) == TextScan(old(r.fibers), old(r.sibRank), old(r.nextFiber), track, returnFiber,
                                          currentFiber, content)
    ensures r.Rest() == old(r.Rest()) && r.log == old(r.log)
  {
    var parent, found := SkipToText(r, track, returnFiber, currentFiber, content);
    r.SetFiber(returnFiber, parent);
    if found.Some? {
      fiber := ReuseOld(r, track, returnFiber, found.value, TextProps(content));
    } else {
      fiber := CreateAttachedText(r, returnFiber, content);
    }
  }

  /**
   * `reconcileChildFibers` / `mountChildFibers` on arena values: an element
   * or a string or number becomes the single child; anything else (null,
   * undefined, an array, a boolean, a non-element object) gives no child and
   * deletes only the first old child.
   */
  ghost function ChildrenScan(a: Arena, rank: map<FiberId, nat>, freshId: FiberId, track: bool,
                              returnFiber: FiberId, current: Option<FiberId>, newChild: Value): (res: (Arena, Option<FiberId>))
    requires ScanOk(a, rank, freshId, returnFiber) && OptIn(current, a)
    ensures a.Keys <= res.0.Keys && OptIn(res.1, res.0)
  {
    if IsValidElement(newChild) then
      var (b, f) := ElementScan(a, rank, freshId, track, returnFiber, current, newChild);
      (Placed(b, track, f), Some(f))
    else if newChild.Str? || newChild.Num? then
      var (b, f) := TextScan(a, rank, freshId, track, returnFiber, current, newChild);
      (Placed(b, track, f), Some(f))
    else if current.Some? then
      (DeleteOne(a, track, returnFiber, current.value), None)
    else
      (a, None)
  }

  /** The element branch of `reconcileChildFibers`: reconcile the single element, then place it. */
  method PlaceElementChild(r: Renderer, track: bool, returnFiber: FiberId, currentFiber: Option<FiberId>,
                           element: Value) returns (f: FiberId)
    requires r.Valid() && returnFiber in r.fibers && OptIn(currentFiber, r.fibers) && IsValidElement(element)
    modifies r
    ensures r.Valid() && ScanOk(old(r.fibers), old(r.sibRank), old(r.nextFiber), returnFiber)
    ensures var (b, g) := ElementScan(old(r.fibers), old(r.sibRank), old(r.nextFiber), track, returnFiber,
                                      currentFiber, element);
      f == g && r.fibers == Placed(b, track, g)
    ensures r.Rest() == old(r.Rest()) && r.log == old(r.log)
  {
    f := ReconcileSingleElement(r, track, returnFiber, currentFiber, element);
    f := PlaceSingleChild(r, track, f);
  }

  /** The text branch of `reconcileChildFibers`: reconcile the single text node, then place it. */
  method PlaceTextChild(r: Renderer, track: bool, returnFiber: FiberId, currentFiber: Option<FiberId>,
                        content: Value) returns (f: FiberId)
    requires r.Valid() && returnFiber in r.fibers && OptIn(currentFiber, r.fibers)
    modifies r
    ensures r.Valid() && ScanOk(old(r.fibers), old(r.sibRank), old(r.nextFiber), returnFiber)
    ensures var (b, g) := TextScan(old(r.fibers), old(r.sibRank), old(r.nextFiber), track, returnFiber,
                                   currentFiber, content);
      f == g && r.fibers == Placed(b, track, g)
    ensures r.Rest() == old(r.Rest()) && r.log == old(r.log)
  {
    f := ReconcileSingleTextNode(r, track, returnFiber, currentFiber, content);
    f := PlaceSingleChild(r, track, f);
  }

  /**
   * `reconcileChildFibers` (`track`) and `mountChildFibers` (`!track`): the
   * returned fiber, if any, is the new single child of `returnFiber`.
   */
  method ReconcileChildFibers(r: Renderer, track: bool, returnFiber: FiberId, currentFiber: Option<FiberId>,
                              newChild: Value) returns (child: Option<FiberId>)
    requires r.Valid() && returnFiber in r.fibers && OptIn(currentFiber, r.fibers)
    modifies r
    ensures r.Valid() && OptIn(child, r.fibers)
    ensures ScanOk(old(r.fibers), old(r.sibRank), old(r.nextFiber), returnFiber)
    ensures (r.fibers, child) == ChildrenScan(old(r.fibers), old(r.sibRank), old(r.nextFiber), track, returnFiber,
                                              currentFiber, newChild)
    ensures r.Rest() == old(r.Rest()) && r.log == old(r.log)
  {
    ValidScanOk(r);
    if IsObject(newChild) && Get(newChild, "$$typeof") == REACT_ELEMENT_TYPE {
      var f := PlaceElementChild(r, track, returnFiber, currentFiber, newChild);
      return Some(f);
    }
    if newChild.Str? || newChild.Num? {
      var f := PlaceTextChild(r, track, returnFiber, currentFiber, newChild);
      return Some(f);
    }
    if currentFiber.Some? {
      DeleteChild(r, track, returnFiber, currentFiber.value);
    }
    return None;
  }
}
