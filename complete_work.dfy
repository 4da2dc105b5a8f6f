/**
 * The complete phase: host instances are created for mounted host fibers
 * (a host component receives the instances of its nearest host
 * descendants), a text fiber whose content changed is marked for update,
 * and the flags of the direct children are bubbled into `subtreeFlags`.
 */
module CompleteWork {
  import opened JsValues
  import opened Fibers
  import opened FiberTrees

  predicate IsHost(tag: WorkTag) {
    tag == HostComponent || tag == HostText
  }

  /** `markUpdate`: `flags |= Update`. */
  method MarkUpdate(r: Renderer, fiber: FiberId)
    requires r.Valid() && fiber in r.fibers
    modifies r
    ensures r.Valid()
    ensures r.fibers == old(r.fibers)[fiber := old(r.fibers)[fiber].(flags := old(r.fibers)[fiber].flags + {Update})]
    ensures r.nextFiber == old(r.nextFiber) && r.sibRank == old(r.sibRank)
    ensures r.Rest() == old(r.Rest()) && r.log == old(r.log)
  {
    r.SetFiber(fiber, r.fibers[fiber].(flags := r.fibers[fiber].flags + {Update}));
  }

  // ---------------------------------------------------------------------
  // bubbleProperties

  /** The `flags` and `subtreeFlags` of the fibers of `chain`, OR-ed together. */
  function ChainFlags(a: Arena, chain: seq<FiberId>): Flags
    requires forall x :: x in chain ==> x in a
  {
    if chain == [] then NoFlags
    else
      var last := chain[|chain| - 1];
      ChainFlags(a, chain[..|chain| - 1]) + a[last].subtreeFlags + a[last].flags
  }

  /** A flag is in `ChainFlags` exactly when some fiber of the chain carries it itself or in its subtree. */
  lemma {:induction false} ChainFlagsMembers(a: Arena, chain: seq<FiberId>, fl: Flag)
    requires forall x :: x in chain ==> x in a
    ensures fl in ChainFlags(a, chain) <==> exists x :: x in chain && (fl in a[x].flags || fl in a[x].subtreeFlags)
    decreases |chain|
  {
    if chain != [] {
      var init, last := chain[..|chain| - 1], chain[|chain| - 1];
      ChainFlagsMembers(a, init, fl);
      assert chain == init + [last];
      assert forall x :: x in chain <==> x in init || x == last;
    }
  }

  /** The writes `child.return = wip` for every fiber of `chain`. */
  function Adopt(chain: seq<FiberId>, wip: FiberId): Rets {
    map x | x in chain :: Some(wip)
  }

  /**
   * `bubbleProperties` on arena values: every fiber on the child chain of
   * `wip` is pointed back at `wip`, and their flags and subtree flags are
   * added to the subtree flags of `wip`.
   */
  ghost function Bubbled(a: Arena, rank: map<FiberId, nat>, wip: FiberId): Arena
    requires SiblingRanked(a, rank) && wip in a && OptIn(a[wip].child, a)
  {
    var chain := ChainOf(a, rank, a[wip].child);
    var b := WithRets(a, Adopt(chain, wip));
    b[wip := b[wip].(subtreeFlags := b[wip].subtreeFlags + ChainFlags(a, chain))]
  }

  /**
   * What `bubbleProperties` promises of the flags: the subtree flags of
   * `wip` keep their bits and gain exactly the bits some direct child
   * carries, itself or below it.
   */
  lemma BubbledFlags(a: Arena, rank: map<FiberId, nat>, wip: FiberId)
    requires SiblingRanked(a, rank) && wip in a && OptIn(a[wip].child, a)
    ensures var chain := ChainOf(a, rank, a[wip].child);
      forall fl :: fl in Bubbled(a, rank, wip)[wip].subtreeFlags <==>
        fl in a[wip].subtreeFlags || exists x :: x in chain && (fl in a[x].flags || fl in a[x].subtreeFlags)
  {
    var chain := ChainOf(a, rank, a[wip].child);
    forall fl: Flag
      ensures fl in ChainFlags(a, chain) <==> exists x :: x in chain && (fl in a[x].flags || fl in a[x].subtreeFlags)
    {
      ChainFlagsMembers(a, chain, fl);
    }
  }

  /**
   * What `bubbleProperties` promises of the links: every direct child's
   * `return` is `wip`, and nothing but those links and the subtree flags
   * of `wip` changes.
   */
  lemma BubbledLinks(a: Arena, rank: map<FiberId, nat>, wip: FiberId)
    requires SiblingRanked(a, rank) && wip in a && OptIn(a[wip].child, a)
    ensures var chain := ChainOf(a, rank, a[wip].child);
      var b := Bubbled(a, rank, wip);
      && b.Keys == a.Keys
      && (forall x :: x in chain ==> b[x].ret == Some(wip))
      && (forall id :: id in a && id != wip ==> b[id] == if id in chain then a[id].(ret := Some(wip)) else a[id])
      && b[wip] == a[wip].(ret := b[wip].ret, subtreeFlags := b[wip].subtreeFlags)
  {
  }

  lemma BubbledRelinked(a: Arena, rank: map<FiberId, nat>, wip: FiberId)
    requires Closed(a) && SiblingRanked(a, rank) && wip in a && OptIn(a[wip].child, a)
    ensures Relinked(a, Bubbled(a, rank, wip))
  {
    WithRetsRelinked(a, Adopt(ChainOf(a, rank, a[wip].child), wip));
  }

  /** The loop of `bubbleProperties`; the `return` links it writes are collected for the caller to store. */
  method GatherChildren(a: Arena, ghost rank: map<FiberId, nat>, wip: FiberId) returns (rets: Rets, subtreeFlags: Flags)
    requires SiblingRanked(a, rank) && wip in a && OptIn(a[wip].child, a)
    ensures var chain := ChainOf(a, rank, a[wip].child);
      rets == Adopt(chain, wip) && subtreeFlags == ChainFlags(a, chain)
  {
    ghost var chain := ChainOf(a, rank, a[wip].child);
    rets, subtreeFlags := map[], NoFlags;
    var child := a[wip].child;
    ghost var i := 0;
    while child.Some?
      invariant i <= |chain| && child == (if i < |chain| then Some(chain[i]) else None)
      invariant rets == Adopt(chain[..i], wip) && subtreeFlags == ChainFlags(a, chain[..i])
      decreases |chain| - i
    {
      var c := child.value;
      assert LinkAt(a, chain, i);
      assert chain[..i + 1] == chain[..i] + [c];
      subtreeFlags := subtreeFlags + a[c].subtreeFlags + a[c].flags;
      rets := rets[c := Some(wip)];
      child := a[c].sibling;
      i := i + 1;
    }
    assert chain[..i] == chain;
  }

  /** `bubbleProperties`. */
  method BubbleProperties(r: Renderer, wip: FiberId)
    requires r.Valid() && wip in r.fibers
    modifies r
    ensures r.Valid() && OptIn(old(r.fibers)[wip].child, old(r.fibers))
    ensures r.fibers == Bubbled(old(r.fibers), old(r.sibRank), wip)
    ensures r.nextFiber == old(r.nextFiber) && r.sibRank == old(r.sibRank)
    ensures r.Rest() == old(r.Rest()) && r.log == old(r.log)
  {
    ValidClosed(r);
    assert FiberOk(r.fibers, r.fibers[wip], r.hooks, r.queues);
    var rets, subtreeFlags := GatherChildren(r.fibers, r.sibRank, wip);
    var b := WithRets(r.fibers, rets);
    BubbledRelinked(r.fibers, r.sibRank, wip);
    StoreFibers(r, b[wip := b[wip].(subtreeFlags := b[wip].subtreeFlags + subtreeFlags)]);
  }

  // ---------------------------------------------------------------------
  // appendAllChildren

  /** Where a walk got to: the `return` links it wrote, its host operations, and whether it ended. */
  datatype Walked = Walked(rets: Rets, ops: seq<HostOp>, ended: bool)

  function Prepend(ops: seq<HostOp>, w: Walked): Walked {
    w.(ops := ops + w.ops)
  }

  /**
   * The walk of `appendAllChildren` at the head of its outer loop, at
   * `node`, with `fuel` steps left: a host fiber is appended and not
   * descended into, another fiber with a child is descended into.
   */
  function Visit(a: Arena, rets: Rets, wip: FiberId, parent: StateNode, node: FiberId, fuel: nat): Walked
    decreases fuel
  {
    if fuel == 0 || node !in a then Walked(rets, [], false)
    else if IsHost(a[node].tag) then
      Prepend([AppendInitialChild(parent, a[node].stateNode)], Climb(a, rets, wip, parent, node, fuel - 1))
    else if a[node].child.Some? then
      var c := a[node].child.value;
      Visit(a, rets[c := Some(node)], wip, parent, c, fuel - 1)
    else
      Climb(a, rets, wip, parent, node, fuel - 1)
  }

  /**
   * The walk once the subtree of `node` is done: it climbs while there is
   * no sibling, and stops at a fiber without `return` or whose `return` is
   * `wip`; otherwise it moves to the sibling.
   */
  function Climb(a: Arena, rets: Rets, wip: FiberId, parent: StateNode, node: FiberId, fuel: nat): Walked
    decreases fuel
  {
    var ret := RetOf(a, rets, node);
    if fuel == 0 || node !in a then Walked(rets, [], false)
    else if a[node].sibling.None? then
      if ret.None? || ret == Some(wip) then Walked(rets, [], true)
      else Climb(a, rets, wip, parent, ret.value, fuel - 1)
    else if node == wip then Walked(rets, [], true)
    else
      var s := a[node].sibling.value;
      Visit(a, rets[s := ret], wip, parent, s, fuel - 1)
  }

  /** The whole walk of `appendAllChildren` from the first child of `wip`. */
  function AppendWalk(a: Arena, wip: FiberId, parent: StateNode, fuel: nat): Walked
    requires wip in a
  {
    if a[wip].child.None? then Walked(map[], [], true) else Visit(a, map[], wip, parent, a[wip].child.value, fuel)
  }

  /** One step of `Visit`, after the operations `ops` already done. */
  lemma VisitStep(ops: seq<HostOp>, a: Arena, rets: Rets, wip: FiberId, parent: StateNode, n: FiberId, fuel: nat)
    requires n in a
    ensures fuel == 0 ==> Prepend(ops, Visit(a, rets, wip, parent, n, fuel)) == Walked(rets, ops, false)
    ensures fuel > 0 && IsHost(a[n].tag) ==>
      Prepend(ops, Visit(a, rets, wip, parent, n, fuel))
        == Prepend(ops + [AppendInitialChild(parent, a[n].stateNode)], Climb(a, rets, wip, parent, n, fuel - 1))
    ensures fuel > 0 && !IsHost(a[n].tag) && a[n].child.Some? ==>
      Prepend(ops, Visit(a, rets, wip, parent, n, fuel))
        == Prepend(ops, Visit(a, rets[a[n].child.value := Some(n)], wip, parent, a[n].child.value, fuel - 1))
    ensures fuel > 0 && !IsHost(a[n].tag) && a[n].child.None? ==>
      Prepend(ops, Visit(a, rets, wip, parent, n, fuel)) == Prepend(ops, Climb(a, rets, wip, parent, n, fuel - 1))
  {
    if fuel > 0 && IsHost(a[n].tag) {
      var w := Climb(a, rets, wip, parent, n, fuel - 1);
      assert ops + ([AppendInitialChild(parent, a[n].stateNode)] + w.ops)
          == (ops + [AppendInitialChild(parent, a[n].stateNode)]) + w.ops;
    }
  }

  /** One step of `Climb`, after the operations `ops` already done. */
  lemma ClimbStep(ops: seq<HostOp>, a: Arena, rets: Rets, wip: FiberId, parent: StateNode, n: FiberId, fuel: nat)
    requires n in a
    ensures var ret := RetOf(a, rets, n);
      && (fuel == 0 ==> Prepend(ops, Climb(a, rets, wip, parent, n, fuel)) == Walked(rets, ops, false))
      && (fuel > 0 && a[n].sibling.None? && (ret.None? || ret == Some(wip)) ==>
            Prepend(ops, Climb(a, rets, wip, parent, n, fuel)) == Walked(rets, ops, true))
      && (fuel > 0 && a[n].sibling.None? && ret.Some? && ret != Some(wip) ==>
            Prepend(ops, Climb(a, rets, wip, parent, n, fuel)) == Prepend(ops, Climb(a, rets, wip, parent, ret.value, fuel - 1)))
      && (fuel > 0 && a[n].sibling.Some? && n == wip ==>
            Prepend(ops, Climb(a, rets, wip, parent, n, fuel)) == Walked(rets, ops, true))
      && (fuel > 0 && a[n].sibling.Some? && n != wip ==>
            Prepend(ops, Climb(a, rets, wip, parent, n, fuel))
              == Prepend(ops, Visit(a, rets[a[n].sibling.value := ret], wip, parent, a[n].sibling.value, fuel - 1)))
  {
  }

  /**
   * The loops of `appendAllChildren` within the step budget; the `return`
   * links they write are collected for the caller to store.
   */
  method WalkHostChildren(a: Arena, wip: FiberId, parent: StateNode) returns (w: Walked)
    requires Closed(a) && wip in a
    ensures w == AppendWalk(a, wip, parent, Budget(a))
    ensures RetsIn(a, w.rets)
  {
    ghost var whole := AppendWalk(a, wip, parent, Budget(a));
    var rets: Rets, fuel: nat, ops: seq<HostOp> := map[], Budget(a), [];
    var node := a[wip].child;
    while node.Some?
      invariant RetsIn(a, rets) && OptIn(node, a)
      invariant node.Some? ==> Prepend(ops, Visit(a, rets, wip, parent, node.value, fuel)) == whole
      invariant node.None? ==> Walked(rets, ops, true) == whole
      decreases fuel
    {
      var n := node.value;
      VisitStep(ops, a, rets, wip, parent, n, fuel);
      if fuel == 0 {
        return Walked(rets, ops, false);
      }
      fuel := fuel - 1;
      if IsHost(a[n].tag) {
        ops := ops + [AppendInitialChild(parent, a[n].stateNode)];
      } else if a[n].child.Some? {
        var c := a[n].child.value;
        rets := rets[c := Some(n)];
        node := Some(c);
        continue;
      }
      while a[n].sibling.None?
        invariant RetsIn(a, rets) && n in a && Prepend(ops, Climb(a, rets, wip, parent, n, fuel)) == whole
        decreases fuel
      {
        ClimbStep(ops, a, rets, wip, parent, n, fuel);
        if fuel == 0 {
          return Walked(rets, ops, false);
        }
        fuel := fuel - 1;
        var ret := RetOf(a, rets, n);
        if ret.None? || ret == Some(wip) {
          return Walked(rets, ops, true);
        }
        n := ret.value;
      }
      ClimbStep(ops, a, rets, wip, parent, n, fuel);
      if fuel == 0 {
        return Walked(rets, ops, false);
      }
      fuel := fuel - 1;
      if n == wip {
        return Walked(rets, ops, true);
      }
      var s := a[n].sibling.value;
      rets := rets[s := RetOf(a, rets, n)];
      node := Some(s);
    }
    return Walked(rets, ops, true);
  }

  /**
   * `appendAllChildren(parent, wip)`: the walk's `appendInitialChild` calls
   * go to the log and the `return` links it wrote to the arena; `ended`
   * is false when the walk would not end.
   */
  method AppendAllChildren(r: Renderer, parent: StateNode, wip: FiberId) returns (ended: bool)
    requires r.Valid() && Closed(r.fibers) && wip in r.fibers
    modifies r
    ensures r.Valid()
    ensures var w := AppendWalk(old(r.fibers), wip, parent, Budget(old(r.fibers)));
      r.fibers == WithRets(old(r.fibers), w.rets) && r.log == old(r.log) + w.ops && ended == w.ended
    ensures r.nextFiber == old(r.nextFiber) && r.sibRank == old(r.sibRank) && r.Rest() == old(r.Rest())
  {
    var w := WalkHostChildren(r.fibers, wip, parent);
    WithRetsRelinked(r.fibers, w.rets);
    StoreFibers(r, WithRets(r.fibers, w.rets));
    r.EmitAll(w.ops);
    ended := w.ended;
  }

  // ---------------------------------------------------------------------
  // completeWork

  /** An arena with the same fibers and sibling links keeps its ranking. */
  lemma SameSiblingsRanked(a: Arena, b: Arena, rank: map<FiberId, nat>)
    requires SiblingRanked(a, rank) && b.Keys == a.Keys
    requires forall id :: id in a ==> b[id].sibling == a[id].sibling
    ensures SiblingRanked(b, rank)
  {
  }

  /** What `completeWork` comes to: its outcome, the new arena, the host operations and the instance counter. */
  datatype Completed = Completed(outcome: Outcome, fibers: Arena, ops: seq<HostOp>, instances: nat)

  /** The fiber `current` of a host fiber, when it has one and an instance: the update path. */
  predicate Updating(f: Fiber) {
    f.alternate.Some? && !f.stateNode.NoInstance?
  }

  /** `f` with its `stateNode`, `flags` or `return` replaced, put back as `wip` and bubbled. */
  ghost function BubbledAs(a: Arena, rank: map<FiberId, nat>, wip: FiberId, f: Fiber): Arena
    requires SiblingRanked(a, rank) && wip in a && OptIn(a[wip].child, a)
    requires f.sibling == a[wip].sibling && f.child == a[wip].child
  {
    SameSiblingsRanked(a, a[wip := f], rank);
    Bubbled(a[wip := f], rank, wip)
  }

  /** The host component case: on mount an instance is created, the children's instances appended to it, and it is stored. */
  ghost function CompleteHostComponent(a: Arena, rank: map<FiberId, nat>, next: nat, wip: FiberId): Completed
    requires SiblingRanked(a, rank) && wip in a && OptIn(a[wip].child, a)
  {
    if Updating(a[wip]) then Completed(Normal, Bubbled(a, rank, wip), [], next)
    else MountHostComponent(a, rank, next, wip)
  }

  /** The mount path of a host component; the walk not ending is `Diverges`. */
  ghost function MountHostComponent(a: Arena, rank: map<FiberId, nat>, next: nat, wip: FiberId): Completed
    requires SiblingRanked(a, rank) && wip in a && OptIn(a[wip].child, a)
  {
    var created := CreateInstance(next, a[wip].fiberType, a[wip].pendingProps);
    var w := AppendWalk(a, wip, Instance(next), Budget(a));
    var a1 := WithRets(a, w.rets);
    if !w.ended then Completed(Diverges, a1, [created] + w.ops, next + 1)
    else
      SameSiblingsRanked(a, a1, rank);
      Completed(Normal, BubbledAs(a1, rank, wip, a1[wip].(stateNode := Instance(next))), [created] + w.ops, next + 1)
  }

  /** The host text case: an update compares the old and new `content`, a mount creates a text instance. */
  ghost function CompleteHostText(a: Arena, rank: map<FiberId, nat>, next: nat, wip: FiberId): Completed
    requires SiblingRanked(a, rank) && wip in a && OptIn(a[wip].child, a) && OptIn(a[wip].alternate, a)
  {
    var f := a[wip];
    if Updating(f) then
      match (ReadProp(a[f.alternate.value].memoizedProps, "content"), ReadProp(f.pendingProps, "content"))
      case (None, _) => Completed(Outcome.Threw, a, [], next)
      case (_, None) => Completed(Outcome.Threw, a, [], next)
      case (Some(oldText), Some(newText)) =>
        if oldText != newText then Completed(Normal, BubbledAs(a, rank, wip, f.(flags := f.flags + {Update})), [], next)
        else Completed(Normal, Bubbled(a, rank, wip), [], next)
    else
      match ReadProp(f.pendingProps, "content")
      case None => Completed(Outcome.Threw, a, [], next)
      case Some(text) =>
        Completed(Normal, BubbledAs(a, rank, wip, f.(stateNode := Instance(next))), [CreateTextInstance(next, text)], next + 1)
  }

  /** `completeWork(wip)` on arena values, with `next` the next host instance id. */
  ghost function Complete(a: Arena, rank: map<FiberId, nat>, next: nat, wip: FiberId): Completed
    requires SiblingRanked(a, rank) && wip in a && OptIn(a[wip].child, a) && OptIn(a[wip].alternate, a)
  {
    match a[wip].tag
    case HostComponent => CompleteHostComponent(a, rank, next, wip)
    case HostText => CompleteHostText(a, rank, next, wip)
    case FunctionComponent => Completed(Normal, Bubbled(a, rank, wip), [], next)
    case HostRoot => Completed(Normal, Bubbled(a, rank, wip), [], next)
    case Fragment => Completed(Normal, a, [], next)
  }

  lemma LogAfter(log: seq<HostOp>, op: HostOp, ops: seq<HostOp>)
    ensures log + [op] + ops == log + ([op] + ops)
  {
  }

  /** The host component case of `completeWork`. */
  method CompleteHostComponentWork(r: Renderer, wip: FiberId) returns (outcome: Outcome)
    requires r.Valid() && wip in r.fibers && OptIn(r.fibers[wip].child, r.fibers)
    modifies r
    ensures r.Valid()
    ensures var c := CompleteHostComponent(old(r.fibers), old(r.sibRank), old(r.nextInstance), wip);
      outcome == c.outcome && r.fibers == c.fibers && r.log == old(r.log) + c.ops && r.nextInstance == c.instances
    ensures r.nextFiber == old(r.nextFiber) && r.sibRank == old(r.sibRank) && r.Held() == old(r.Held())
  {
    var f := r.fibers[wip];
    if f.alternate.Some? && !f.stateNode.NoInstance? {
      BubbleProperties(r, wip);
      outcome := Normal;
    } else {
      outcome := MountHostComponentWork(r, wip);
    }
  }

  /** The mount path: `createInstance`, `appendAllChildren`, then `stateNode` and `bubbleProperties`. */
  method MountHostComponentWork(r: Renderer, wip: FiberId) returns (outcome: Outcome)
    requires r.Valid() && wip in r.fibers && OptIn(r.fibers[wip].child, r.fibers)
    modifies r
    ensures r.Valid()
    ensures var c := MountHostComponent(old(r.fibers), old(r.sibRank), old(r.nextInstance), wip);
      outcome == c.outcome && r.fibers == c.fibers && r.log == old(r.log) + c.ops && r.nextInstance == c.instances
    ensures r.nextFiber == old(r.nextFiber) && r.sibRank == old(r.sibRank) && r.Held() == old(r.Held())
  {
    var f := r.fibers[wip];
    ValidClosed(r);
    ghost var a, rank := r.fibers, r.sibRank;
    var inst := r.NewInstance();
    ghost var w := AppendWalk(a, wip, Instance(inst), Budget(a));
    ghost var a1 := WithRets(a, w.rets);
    var created := CreateInstance(inst, f.fiberType, f.pendingProps);
    r.EmitAll([created]);
    var ended := AppendAllChildren(r, Instance(inst), wip);
    assert r.fibers == a1 && ended == w.ended;
    LogAfter(old(r.log), created, w.ops);
    if !ended {
      return Diverges;
    }
    assert FiberOk(r.fibers, r.fibers[wip], r.hooks, r.queues);
    r.SetFiber(wip, r.fibers[wip].(stateNode := Instance(inst)));
    BubbleProperties(r, wip);
    assert r.fibers == BubbledAs(a1, rank, wip, a1[wip].(stateNode := Instance(inst)));
    return Normal;
  }

  /** The host text case of `completeWork`; reading `content` off null props throws. */
  method CompleteHostTextWork(r: Renderer, wip: FiberId) returns (outcome: Outcome)
    requires r.Valid() && wip in r.fibers && OptIn(r.fibers[wip].child, r.fibers) && OptIn(r.fibers[wip].alternate, r.fibers)
    modifies r
    ensures r.Valid()
    ensures var c := CompleteHostText(old(r.fibers), old(r.sibRank), old(r.nextInstance), wip);
      outcome == c.outcome && r.fibers == c.fibers && r.log == old(r.log) + c.ops && r.nextInstance == c.instances
    ensures r.nextFiber == old(r.nextFiber) && r.sibRank == old(r.sibRank) && r.Held() == old(r.Held())
  {
    var f := r.fibers[wip];
    if f.alternate.Some? && !f.stateNode.NoInstance? {
      var oldText := ReadProp(r.fibers[f.alternate.value].memoizedProps, "content");
      if oldText.None? {
        return Outcome.Threw;
      }
      var newText := ReadProp(f.pendingProps, "content");
      if newText.None? {
        return Outcome.Threw;
      }
      if oldText.value != newText.value {
        MarkUpdate(r, wip);
      }
    } else {
      var text := ReadProp(f.pendingProps, "content");
      if text.None? {
        return Outcome.Threw;
      }
      assert FiberOk(r.fibers, f, r.hooks, r.queues);
      var inst := r.NewInstance();
      r.EmitAll([CreateTextInstance(inst, text.value)]);
      r.SetFiber(wip, f.(stateNode := Instance(inst)));
    }
    BubbleProperties(r, wip);
    return Normal;
  }

  /**
   * `completeWork(wip)`: host fibers get their instances and update marks,
   * every handled tag bubbles its children's flags, and a fragment is left
   * as it is.
   */
  method CompleteWork(r: Renderer, wip: FiberId) returns (outcome: Outcome)
    requires r.Valid() && wip in r.fibers
    modifies r
    ensures r.Valid() && OptIn(old(r.fibers)[wip].child, old(r.fibers)) && OptIn(old(r.fibers)[wip].alternate, old(r.fibers))
    ensures var c := Complete(old(r.fibers), old(r.sibRank), old(r.nextInstance), wip);
      outcome == c.outcome && r.fibers == c.fibers && r.log == old(r.log) + c.ops && r.nextInstance == c.instances
    ensures r.nextFiber == old(r.nextFiber) && r.sibRank == old(r.sibRank) && r.Held() == old(r.Held())
  {
    assert FiberOk(r.fibers, r.fibers[wip], r.hooks, r.queues);
    match r.fibers[wip].tag
    case HostComponent =>
      outcome := CompleteHostComponentWork(r, wip);
    case HostText =>
      outcome := CompleteHostTextWork(r, wip);
    case FunctionComponent =>
      BubbleProperties(r, wip);
      outcome := Normal;
    case HostRoot =>
      BubbleProperties(r, wip);
      outcome := Normal;
    case Fragment =>
      outcome := Normal;
  }
}

/**
 * What the walk of `appendAllChildren` does on a finite tree: it appends,
 * in document order, the host fibers nearest to `wip` (a host fiber's own
 * subtree is left to it), points every fiber it passes back at the fiber
 * it reached it from, and ends within the step budget.
 */
module AppendWalkTrees {
  import opened JsValues
  import opened Fibers
  import opened FiberTrees
  import opened CompleteWork

  predicate HostAt(a: Arena, x: FiberId) {
    x in a && IsHost(a[x].tag)
  }

  /** The host fibers of a tree with no host fiber above them, in document order. */
  function FrontierT(a: Arena, t: Tree): seq<FiberId>
    decreases t
  {
    if HostAt(a, t.id) then [t.id] else Frontier(a, t.kids)
  }

  function Frontier(a: Arena, ts: seq<Tree>): seq<FiberId>
    decreases ts
  {
    if ts == [] then [] else FrontierT(a, ts[0]) + Frontier(a, ts[1..])
  }

  function StateOf(a: Arena, x: FiberId): StateNode {
    if x in a then a[x].stateNode else NoInstance
  }

  /** `appendInitialChild(parent, instance)` for each fiber of `xs`, in order. */
  function Appends(a: Arena, parent: StateNode, xs: seq<FiberId>): seq<HostOp> {
    if xs == [] then [] else [AppendInitialChild(parent, StateOf(a, xs[0]))] + Appends(a, parent, xs[1..])
  }

  lemma {:induction false} AppendsConcat(a: Arena, parent: StateNode, xs: seq<FiberId>, ys: seq<FiberId>)
    ensures Appends(a, parent, xs + ys) == Appends(a, parent, xs) + Appends(a, parent, ys)
  {
    if xs != [] {
      var op := AppendInitialChild(parent, StateOf(a, xs[0]));
      assert (xs + ys)[0] == xs[0] && (xs + ys)[1..] == xs[1..] + ys;
      AppendsConcat(a, parent, xs[1..], ys);
      assert [op] + (Appends(a, parent, xs[1..]) + Appends(a, parent, ys))
          == ([op] + Appends(a, parent, xs[1..])) + Appends(a, parent, ys);
    } else {
      assert xs + ys == ys;
    }
  }

  /** The steps the walk spends in a tree, from arriving at its root to being ready to leave it. */
  function Cost(a: Arena, t: Tree): nat
    decreases t
  {
    if HostAt(a, t.id) || t.kids == [] then 1 else CostF(a, t.kids) + 2
  }

  function CostF(a: Arena, ts: seq<Tree>): nat
    decreases ts
  {
    if ts == [] then 0
    else if |ts| == 1 then Cost(a, ts[0])
    else Cost(a, ts[0]) + 1 + CostF(a, ts[1..])
  }

  /** The `return` links written while walking a tree: its kids point at it, unless it is a host fiber. */
  function FixTree(a: Arena, rets: Rets, t: Tree): Rets
    decreases t
  {
    if HostAt(a, t.id) || t.kids == [] then rets
    else FixForest(a, rets[t.kids[0].id := Some(t.id)], t.kids)
  }

  /** The same for a forest whose first root's `return` is already written: each next root gets the same `return`. */
  function FixForest(a: Arena, rets: Rets, ts: seq<Tree>): Rets
    decreases ts
  {
    if ts == [] then rets
    else
      var b := FixTree(a, rets, ts[0]);
      if |ts| == 1 then b else FixForest(a, b[ts[1].id := RetOf(a, b, ts[0].id)], ts[1..])
  }

  /** Walking a tree writes the `return` links of its descendants only. */
  lemma {:induction false} FixTreeFrame(a: Arena, rets: Rets, t: Tree, x: FiberId)
    requires x !in IdsF(t.kids)
    ensures RetOf(a, FixTree(a, rets, t), x) == RetOf(a, rets, x)
    decreases t
  {
    if !(HostAt(a, t.id) || t.kids == []) {
      IdsFirst(t.kids);
      FixForestFrame(a, rets[t.kids[0].id := Some(t.id)], t.kids, x);
    }
  }

  lemma {:induction false} FixForestFrame(a: Arena, rets: Rets, ts: seq<Tree>, x: FiberId)
    requires ts != [] && x !in IdsF(ts[0].kids) + IdsF(ts[1..])
    ensures RetOf(a, FixForest(a, rets, ts), x) == RetOf(a, rets, x)
    decreases ts
  {
    var b := FixTree(a, rets, ts[0]);
    FixTreeFrame(a, rets, ts[0], x);
    if |ts| > 1 {
      IdsFirst(ts[1..]);
      assert ts[1..][0] == ts[1] && ts[1..][1..] == ts[2..];
      FixForestFrame(a, b[ts[1].id := RetOf(a, b, ts[0].id)], ts[1..], x);
    }
  }

  lemma NoDupSplit<T>(s: seq<T>, t: seq<T>)
    requires NoDup(s + t)
    ensures NoDup(s) && NoDup(t) && forall x :: x in s ==> x !in t
  {
    forall i, j | 0 <= i < j < |s|
      ensures s[i] != s[j]
    {
      assert (s + t)[i] == s[i] && (s + t)[j] == s[j];
    }
    forall i, j | 0 <= i < j < |t|
      ensures t[i] != t[j]
    {
      assert (s + t)[|s| + i] == t[i] && (s + t)[|s| + j] == t[j];
    }
    forall x | x in s
      ensures x !in t
    {
      var i :| 0 <= i < |s| && s[i] == x;
      if j :| 0 <= j < |t| && t[j] == x {
        assert (s + t)[i] == (s + t)[|s| + j];
      }
    }
  }

  /** The last root of a forest is a fiber of the arena without a sibling. */
  lemma {:induction false} ForestLast(a: Arena, first: Option<FiberId>, ts: seq<Tree>)
    requires ts != [] && Forest(a, first, ts)
    ensures ts[|ts| - 1].id in a && a[ts[|ts| - 1].id].sibling.None?
    decreases |ts|
  {
    if |ts| > 1 {
      ForestLast(a, a[ts[0].id].sibling, ts[1..]);
    }
  }

  /** The ids of a forest: its first root, that root's descendants, then the rest. */
  lemma IdsFirst(ts: seq<Tree>)
    requires ts != []
    ensures IdsF(ts) == [ts[0].id] + IdsF(ts[0].kids) + IdsF(ts[1..])
  {
  }

  lemma PrependPrepend(xs: seq<HostOp>, ys: seq<HostOp>, w: Walked)
    ensures Prepend(xs, Prepend(ys, w)) == Prepend(xs + ys, w)
  {
    assert xs + (ys + w.ops) == (xs + ys) + w.ops;
  }

  lemma VisitDown(a: Arena, rets: Rets, wip: FiberId, parent: StateNode, n: FiberId, c: FiberId, fuel: nat)
    requires n in a && fuel > 0
    requires !IsHost(a[n].tag) && a[n].child == Some(c)
    ensures Visit(a, rets, wip, parent, n, fuel) == Visit(a, rets[c := Some(n)], wip, parent, c, fuel - 1)
  {
  }

  lemma ClimbOut(a: Arena, rets: Rets, wip: FiberId, parent: StateNode, n: FiberId, p: FiberId, fuel: nat)
    requires n in a && fuel > 0
    requires a[n].sibling.None? && RetOf(a, rets, n) == Some(p) && p != wip
    ensures Climb(a, rets, wip, parent, n, fuel) == Climb(a, rets, wip, parent, p, fuel - 1)
  {
  }

  lemma ClimbOver(a: Arena, rets: Rets, wip: FiberId, parent: StateNode, n: FiberId, s: FiberId, fuel: nat)
    requires n in a && fuel > 0
    requires a[n].sibling == Some(s) && n != wip
    ensures Climb(a, rets, wip, parent, n, fuel) == Visit(a, rets[s := RetOf(a, rets, n)], wip, parent, s, fuel - 1)
  {
  }

  /**
   * Walking a tree from its root: the walk appends the tree's frontier,
   * writes the `return` links of `FixTree`, and climbs out of the root
   * after `Cost` steps.
   */
  lemma {:induction false} VisitTree(a: Arena, rets: Rets, t: Tree, wip: FiberId, parent: StateNode, fuel: nat)
    requires t.id in a && Forest(a, a[t.id].child, t.kids)
    requires NoDup([t.id] + IdsF(t.kids)) && wip !in [t.id] + IdsF(t.kids)
    requires fuel >= Cost(a, t)
    ensures Visit(a, rets, wip, parent, t.id, fuel)
         == Prepend(Appends(a, parent, FrontierT(a, t)), Climb(a, FixTree(a, rets, t), wip, parent, t.id, fuel - Cost(a, t)))
    decreases t
  {
    if HostAt(a, t.id) {
      assert Appends(a, parent, FrontierT(a, t)) == [AppendInitialChild(parent, a[t.id].stateNode)];
    } else if t.kids == [] {
      assert a[t.id].child.None?;
      assert Prepend([], Climb(a, rets, wip, parent, t.id, fuel - 1)) == Climb(a, rets, wip, parent, t.id, fuel - 1);
    } else {
      var k := t.kids[0].id;
      var rets1 := rets[k := Some(t.id)];
      VisitDown(a, rets, wip, parent, t.id, k, fuel);
      NoDupSplit([t.id], IdsF(t.kids));
      VisitForest(a, rets1, t.kids, wip, parent, fuel - 1);
      FixForestLast(a, rets1, t.kids);
      var b := FixForest(a, rets1, t.kids);
      var last := t.kids[|t.kids| - 1].id;
      ForestLast(a, a[t.id].child, t.kids);
      ClimbOut(a, b, wip, parent, last, t.id, fuel - 1 - CostF(a, t.kids));
    }
  }

  /** The `return` the walk leaves on a forest's last root is the one its first root had. */
  lemma {:induction false} FixForestLast(a: Arena, rets: Rets, ts: seq<Tree>)
    requires ts != [] && NoDup(IdsF(ts))
    ensures RetOf(a, FixForest(a, rets, ts), ts[|ts| - 1].id) == RetOf(a, rets, ts[0].id)
    decreases ts
  {
    var t := ts[0];
    IdsFirst(ts);
    NoDupSplit([t.id] + IdsF(t.kids), IdsF(ts[1..]));
    NoDupSplit([t.id], IdsF(t.kids));
    FixTreeFrame(a, rets, t, t.id);
    if |ts| > 1 {
      var b0 := FixTree(a, rets, t);
      var rest := ts[1..];
      FixForestLast(a, b0[rest[0].id := RetOf(a, b0, t.id)], rest);
      assert rest[|rest| - 1] == ts[|ts| - 1];
    }
  }

  /** The host operations and the end point of walking a forest from its first root. */
  ghost predicate ForestOps(a: Arena, rets: Rets, ts: seq<Tree>, wip: FiberId, parent: StateNode, fuel: nat) {
    && ts != [] && fuel >= CostF(a, ts)
    && Visit(a, rets, wip, parent, ts[0].id, fuel)
       == Prepend(Appends(a, parent, Frontier(a, ts)),
                  Climb(a, FixForest(a, rets, ts), wip, parent, ts[|ts| - 1].id, fuel - CostF(a, ts)))
  }

  /**
   * Walking a forest from its first root, whose `return` is written: the
   * walk appends the frontiers in order and ends at the last root after
   * `CostF` steps, with the `return` links of `FixForest`.
   */
  lemma {:induction false} VisitForest(a: Arena, rets: Rets, ts: seq<Tree>, wip: FiberId, parent: StateNode, fuel: nat)
    requires ts != [] && Forest(a, Some(ts[0].id), ts)
    requires NoDup(IdsF(ts)) && wip !in IdsF(ts)
    requires fuel >= CostF(a, ts)
    ensures ForestOps(a, rets, ts, wip, parent, fuel)
    decreases ts, 1
  {
    IdsFirst(ts);
    var t := ts[0];
    NoDupSplit([t.id] + IdsF(t.kids), IdsF(ts[1..]));
    NoDupSplit([t.id], IdsF(t.kids));
    VisitTree(a, rets, t, wip, parent, fuel);
    if |ts| == 1 {
      ForestOne(a, rets, ts, wip, parent, fuel);
    } else {
      VisitForestOn(a, rets, ts, wip, parent, fuel);
    }
  }

  lemma ForestOne(a: Arena, rets: Rets, ts: seq<Tree>, wip: FiberId, parent: StateNode, fuel: nat)
    requires |ts| == 1 && fuel >= CostF(a, ts)
    requires Visit(a, rets, wip, parent, ts[0].id, fuel)
      == Prepend(Appends(a, parent, FrontierT(a, ts[0])),
                 Climb(a, FixTree(a, rets, ts[0]), wip, parent, ts[0].id, fuel - Cost(a, ts[0])))
    ensures ForestOps(a, rets, ts, wip, parent, fuel)
  {
    assert Frontier(a, ts) == FrontierT(a, ts[0]) + Frontier(a, []) == FrontierT(a, ts[0]);
  }

  /** `VisitForest` past the first tree. */
  lemma {:induction false} VisitForestOn(a: Arena, rets: Rets, ts: seq<Tree>, wip: FiberId, parent: StateNode, fuel: nat)
    requires |ts| > 1 && Forest(a, Some(ts[0].id), ts)
    requires NoDup(IdsF(ts[1..])) && wip !in IdsF(ts)
    requires fuel >= CostF(a, ts)
    requires Visit(a, rets, wip, parent, ts[0].id, fuel)
      == Prepend(Appends(a, parent, FrontierT(a, ts[0])),
                 Climb(a, FixTree(a, rets, ts[0]), wip, parent, ts[0].id, fuel - Cost(a, ts[0])))
    ensures ForestOps(a, rets, ts, wip, parent, fuel)
    decreases ts, 0
  {
    IdsFirst(ts);
    var t := ts[0];
    var b0 := FixTree(a, rets, t);
    var f1 := fuel - Cost(a, t);
    var rets2 := b0[ts[1].id := RetOf(a, b0, t.id)];
    VisitForest(a, rets2, ts[1..], wip, parent, f1 - 1);
    ForestOnJoin(a, rets, ts, wip, parent, fuel);
  }

  /** Joining the walk of the first tree to the walk of the rest. */
  lemma ForestOnJoin(a: Arena, rets: Rets, ts: seq<Tree>, wip: FiberId, parent: StateNode, fuel: nat)
    requires |ts| > 1 && ts[0].id in a && a[ts[0].id].sibling == Some(ts[1].id) && ts[0].id != wip
    requires fuel >= CostF(a, ts)
    requires Visit(a, rets, wip, parent, ts[0].id, fuel)
      == Prepend(Appends(a, parent, FrontierT(a, ts[0])),
                 Climb(a, FixTree(a, rets, ts[0]), wip, parent, ts[0].id, fuel - Cost(a, ts[0])))
    requires ForestOps(a, FixTree(a, rets, ts[0])[ts[1].id := RetOf(a, FixTree(a, rets, ts[0]), ts[0].id)],
                       ts[1..], wip, parent, fuel - Cost(a, ts[0]) - 1)
    ensures ForestOps(a, rets, ts, wip, parent, fuel)
  {
    var t := ts[0];
    var rest := ts[1..];
    var b0 := FixTree(a, rets, t);
    var f1 := fuel - Cost(a, t);
    var rets2 := b0[rest[0].id := RetOf(a, b0, t.id)];
    var last := ts[|ts| - 1].id;
    assert rest[|rest| - 1].id == last;
    var b := FixForest(a, rets2, rest);
    var g := f1 - 1 - CostF(a, rest);
    var xs := Appends(a, parent, FrontierT(a, t));
    var ys := Appends(a, parent, Frontier(a, rest));
    ClimbOver(a, b0, wip, parent, t.id, rest[0].id, f1);
    AppendsConcat(a, parent, FrontierT(a, t), Frontier(a, rest));
    PrependPrepend(xs, ys, Climb(a, b, wip, parent, last, g));
  }

  lemma {:induction false} CostBound(a: Arena, t: Tree)
    ensures Cost(a, t) + 1 <= 2 * Size(t)
    decreases t
  {
    if !(HostAt(a, t.id) || t.kids == []) {
      CostFBound(a, t.kids);
    }
  }

  /** A forest's walk takes fewer than two steps per fiber. */
  lemma {:induction false} CostFBound(a: Arena, ts: seq<Tree>)
    requires ts != []
    ensures CostF(a, ts) + 1 <= 2 * SizeF(ts)
    decreases ts
  {
    CostBound(a, ts[0]);
    if |ts| > 1 {
      CostFBound(a, ts[1..]);
    } else {
      assert SizeF(ts) == Size(ts[0]) + SizeF([]);
    }
  }

  /**
   * `appendAllChildren` on a `wip` whose children form a finite forest,
   * whose first child points back at `wip`: the walk ends within the
   * budget, appends the forest's frontier in document order, and writes
   * the `return` links of `FixForest`.
   */
  lemma AppendWalkTree(a: Arena, wip: FiberId, parent: StateNode, ts: seq<Tree>)
    requires wip in a && Forest(a, a[wip].child, ts)
    requires NoDup(IdsF(ts)) && wip !in IdsF(ts)
    requires ts != [] ==> a[ts[0].id].ret == Some(wip)
    ensures AppendWalk(a, wip, parent, Budget(a))
         == Walked(FixForest(a, map[], ts), Appends(a, parent, Frontier(a, ts)), true)
  {
    if ts != [] {
      ForestSizeBound(a, a[wip].child, ts);
      CostFBound(a, ts);
      VisitForest(a, map[], ts, wip, parent, Budget(a));
      FixForestLast(a, map[], ts);
      ForestLast(a, a[wip].child, ts);
    }
  }
}
