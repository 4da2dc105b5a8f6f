/**
 * The work loop: a render starts from a fresh work-in-progress twin of the
 * root's current fiber, runs `beginWork` down the tree and `completeWork`
 * back up it one unit at a time, and hands the finished tree to the commit,
 * which runs the mutation pass only when the tree carries mutation flags
 * and then makes it the root's current tree.
 */
module WorkLoop {
  import opened JsValues
  import opened Fibers
  import opened FiberTrees
  import opened CompleteWork
  import opened CommitEffects
  import opened FiberHooks
  import opened BeginWork

  // ---------------------------------------------------------------------
  // markUpdateFromFiberToRoot

  /** The fiber `k` moves up the `return` links from `fiber`, if they reach that far. */
  ghost function Above(a: Arena, fiber: FiberId, k: nat): Option<FiberId>
    decreases k
  {
    if k == 0 then (if fiber in a then Some(fiber) else None)
    else if fiber !in a || a[fiber].ret.None? then None
    else Above(a, a[fiber].ret.value, k - 1)
  }

  /** The fiber that following `return` from `fiber` ends at, when it ends within `fuel` moves. */
  ghost function TopOf(a: Arena, fiber: FiberId, fuel: nat): (t: Option<FiberId>)
    requires fiber in a
    ensures t.Some? ==> t.value in a && a[t.value].ret.None?
    decreases fuel
  {
    if a[fiber].ret.None? then Some(fiber)
    else if fuel == 0 || a[fiber].ret.value !in a then None
    else TopOf(a, a[fiber].ret.value, fuel - 1)
  }

  /** The top is an ancestor of the fiber: it is reached by moving up, within the budget. */
  lemma {:induction false} TopIsAbove(a: Arena, fiber: FiberId, fuel: nat)
    requires fiber in a && TopOf(a, fiber, fuel).Some?
    ensures exists k: nat :: k <= fuel && Above(a, fiber, k) == TopOf(a, fiber, fuel)
    decreases fuel
  {
    if a[fiber].ret.None? {
      assert Above(a, fiber, 0) == Some(fiber);
    } else {
      var p := a[fiber].ret.value;
      assert fuel > 0;
      TopIsAbove(a, p, fuel - 1);
      var k: nat :| k <= fuel - 1 && Above(a, p, k) == TopOf(a, p, fuel - 1);
      assert Above(a, fiber, k + 1) == Above(a, p, k);
    }
  }

  /** Every fiber on the way up has the same top. */
  lemma {:induction false} TopOfAbove(a: Arena, fiber: FiberId, fuel: nat, k: nat)
    requires fiber in a && TopOf(a, fiber, fuel).Some? && k <= fuel && Above(a, fiber, k).Some?
    ensures Above(a, fiber, k).value in a
    ensures TopOf(a, Above(a, fiber, k).value, fuel - k) == TopOf(a, fiber, fuel)
    decreases k
  {
    if k > 0 {
      TopOfAbove(a, a[fiber].ret.value, fuel - 1, k - 1);
    }
  }

  /** The root object found above `fiber`: the top's `stateNode` when the top is a host root. */
  ghost function RootAbove(a: Arena, fiber: FiberId): Option<FiberRootNode>
    requires fiber in a
  {
    var t := TopOf(a, fiber, Budget(a));
    if t.Some? && a[t.value].tag == HostRoot && a[t.value].stateNode.RootNode? then Some(a[t.value].stateNode.root)
    else None
  }

  /**
   * `markUpdateFromFiberToRoot`: climb to the top of the `return` chain and
   * return its root object when it is a host root, null otherwise. `ended`
   * is false when the climb does not end within the budget.
   */
  method MarkUpdateFromFiberToRoot(r: Renderer, fiber: FiberId) returns (ended: bool, root: Option<FiberRootNode>)
    requires r.Valid() && fiber in r.fibers
    ensures ended <==> TopOf(r.fibers, fiber, Budget(r.fibers)).Some?
    ensures root == RootAbove(r.fibers, fiber)
  {
    ValidClosed(r);
    var node, fuel := fiber, Budget(r.fibers);
    while r.fibers[node].ret.Some?
      invariant node in r.fibers && TopOf(r.fibers, node, fuel) == TopOf(r.fibers, fiber, Budget(r.fibers))
      decreases fuel
    {
      if fuel == 0 {
        return false, None;
      }
      node, fuel := r.fibers[node].ret.value, fuel - 1;
    }
    if r.fibers[node].tag == HostRoot && r.fibers[node].stateNode.RootNode? {
      return true, Some(r.fibers[node].stateNode.root);
    }
    return true, None;
  }

  // ---------------------------------------------------------------------
  // completeUnitOfWork

  /** `b` has the fibers of `a`, with the same sibling links. */
  ghost predicate SameSiblings(a: Arena, b: Arena) {
    && b.Keys == a.Keys
    && forall id {:trigger b[id]} :: id in a ==> b[id].sibling == a[id].sibling
  }

  lemma BubbledSiblings(a: Arena, rank: map<FiberId, nat>, wip: FiberId)
    requires SiblingRanked(a, rank) && wip in a && OptIn(a[wip].child, a)
    ensures SameSiblings(a, Bubbled(a, rank, wip))
  {
    BubbledLinks(a, rank, wip);
  }

  lemma BubbledAsSiblings(a: Arena, rank: map<FiberId, nat>, wip: FiberId, f: Fiber)
    requires SiblingRanked(a, rank) && wip in a && OptIn(a[wip].child, a)
    requires f.sibling == a[wip].sibling && f.child == a[wip].child
    ensures SameSiblings(a, BubbledAs(a, rank, wip, f))
  {
    SameSiblingsRanked(a, a[wip := f], rank);
    BubbledLinks(a[wip := f], rank, wip);
  }

  lemma MountSiblings(a: Arena, rank: map<FiberId, nat>, next: nat, wip: FiberId)
    requires SiblingRanked(a, rank) && wip in a && OptIn(a[wip].child, a)
    ensures SameSiblings(a, MountHostComponent(a, rank, next, wip).fibers)
  {
    var w := AppendWalk(a, wip, Instance(next), Budget(a));
    var a1 := WithRets(a, w.rets);
    SameSiblingsRanked(a, a1, rank);
    BubbledAsSiblings(a1, rank, wip, a1[wip].(stateNode := Instance(next)));
  }

  /** What `completeWork` leaves alone: the fibers and their sibling links. */
  lemma CompleteSiblings(a: Arena, rank: map<FiberId, nat>, next: nat, wip: FiberId)
    requires SiblingRanked(a, rank) && wip in a && OptIn(a[wip].child, a) && OptIn(a[wip].alternate, a)
    ensures SameSiblings(a, Complete(a, rank, next, wip).fibers)
  {
    var f := a[wip];
    if f.tag == HostComponent && !Updating(f) {
      MountSiblings(a, rank, next, wip);
    } else if f.tag == HostText {
      TextSiblings(a, rank, next, wip);
    } else if f.tag != Fragment {
      BubbledSiblings(a, rank, wip);
    }
  }

  lemma TextSiblings(a: Arena, rank: map<FiberId, nat>, next: nat, wip: FiberId)
    requires SiblingRanked(a, rank) && wip in a && OptIn(a[wip].child, a) && OptIn(a[wip].alternate, a)
    requires a[wip].tag == HostText
    ensures SameSiblings(a, CompleteHostText(a, rank, next, wip).fibers)
  {
    var f := a[wip];
    if Updating(f) {
      BubbledSiblings(a, rank, wip);
      BubbledAsSiblings(a, rank, wip, f.(flags := f.flags + {Update}));
    } else {
      BubbledAsSiblings(a, rank, wip, f.(stateNode := Instance(next)));
    }
  }

  /** `completeWork` creates at most one host instance, with the next id. */
  lemma CompleteCounts(a: Arena, rank: map<FiberId, nat>, next: nat, wip: FiberId)
    requires SiblingRanked(a, rank) && wip in a && OptIn(a[wip].child, a) && OptIn(a[wip].alternate, a)
    ensures next <= Complete(a, rank, next, wip).instances <= next + 1
  {
  }

  /** Where `completeUnitOfWork` ends: its outcome, the arena, the host operations, the instance counter and the next unit. */
  datatype Unwound = Unwound(outcome: Outcome, fibers: Arena, ops: seq<HostOp>, instances: nat, next: Option<FiberId>)

  /**
   * `completeUnitOfWork(node)` on arena values: complete `node`; stop at
   * its sibling, which is the next unit of work, or climb to its parent and
   * complete that, until a fiber with no parent ends the render (no next
   * unit). The links are read after the completion. A fiber whose
   * links leave the arena, or a climb longer than `fuel`, is stuck.
   */
  ghost function Unwind(a: Arena, rank: map<FiberId, nat>, inst: nat, node: FiberId, fuel: Steps): (u: Unwound)
    requires SiblingRanked(a, rank) && node in a
    ensures SameSiblings(a, u.fibers) && inst <= u.instances
    decreases fuel
  {
    if !OptIn(a[node].child, a) || !OptIn(a[node].alternate, a) then Unwound(Diverges, a, [], inst, None)
    else
      var c := Complete(a, rank, inst, node);
      CompleteSiblings(a, rank, inst, node);
      CompleteCounts(a, rank, inst, node);
      var b := c.fibers;
      SameSiblingsRanked(a, b, rank);
      if c.outcome != Normal then Unwound(c.outcome, b, c.ops, c.instances, None)
      else if b[node].sibling.Some? then Unwound(Normal, b, c.ops, c.instances, b[node].sibling)
      else if b[node].ret.None? then Unwound(Normal, b, c.ops, c.instances, None)
      else if fuel.Out? || b[node].ret.value !in b then Unwound(Diverges, b, c.ops, c.instances, None)
      else
        var u := Unwind(b, rank, c.instances, b[node].ret.value, fuel.rest);
        u.(ops := c.ops + u.ops)
  }

  /** Completing `node` ends the unwinding when it throws, when `node` has a sibling, or when it has no parent. */
  lemma UnwindStops(a: Arena, rank: map<FiberId, nat>, inst: nat, node: FiberId, fuel: Steps)
    requires SiblingRanked(a, rank) && node in a && OptIn(a[node].child, a) && OptIn(a[node].alternate, a)
    ensures var c := Complete(a, rank, inst, node);
      var u := Unwind(a, rank, inst, node, fuel);
      c.outcome != Normal || node !in c.fibers || c.fibers[node].sibling.Some? || c.fibers[node].ret.None? ==>
        && u.outcome == c.outcome && u.fibers == c.fibers && u.ops == c.ops && u.instances == c.instances
        && (u.outcome == Normal ==> u.next == c.fibers[node].sibling)
  {
    CompleteSiblings(a, rank, inst, node);
  }

  /** Otherwise it climbs: what follows is the unwinding from the parent `up`, in the arena the completion `c` left. */
  lemma UnwindClimbs(a: Arena, rank: map<FiberId, nat>, inst: nat, node: FiberId, fuel: Steps, c: Completed, up: FiberId)
    requires SiblingRanked(a, rank) && node in a && OptIn(a[node].child, a) && OptIn(a[node].alternate, a)
    requires c == Complete(a, rank, inst, node)
    requires c.outcome == Normal && node in c.fibers && c.fibers[node].sibling.None? && c.fibers[node].ret == Some(up)
      && up in c.fibers && fuel.More?
    ensures SiblingRanked(c.fibers, rank)
    ensures var u := Unwind(c.fibers, rank, c.instances, up, fuel.rest);
      var w := Unwind(a, rank, inst, node, fuel);
      w.outcome == u.outcome && w.fibers == u.fibers && w.ops == c.ops + u.ops && w.instances == u.instances && w.next == u.next
  {
    CompleteSiblings(a, rank, inst, node);
    SameSiblingsRanked(a, c.fibers, rank);
  }

  lemma AppendAssoc<T>(x: seq<T>, y: seq<T>, z: seq<T>)
    ensures (x + y) + z == x + (y + z)
  {
  }

  /**
   * `completeUnitOfWork(fiber)`: complete fibers from `fiber` upwards
   * until one has a sibling, which becomes `workInProgress`; climbing past
   * the top sets `workInProgress` to null.
   */
  method CompleteUnitOfWork(r: Renderer, fiber: FiberId) returns (outcome: Outcome)
    requires r.Valid() && fiber in r.fibers
    modifies r
    ensures r.Valid()
    ensures var u := Unwind(old(r.fibers), old(r.sibRank), old(r.nextInstance), fiber, StepsOf(Budget(old(r.fibers))));
      && outcome == u.outcome && r.fibers == u.fibers && r.log == old(r.log) + u.ops && r.nextInstance == u.instances
      && (outcome == Normal ==> r.workInProgress == u.next)
    ensures r.nextFiber == old(r.nextFiber) && r.sibRank == old(r.sibRank)
    ensures r.hooks == old(r.hooks) && r.queues == old(r.queues)
  {
    outcome := CompleteFrom(r, fiber, StepsOf(Budget(r.fibers)));
  }

  /** The `do … while` loop of `completeUnitOfWork` from `node`, with `fuel` climbs left. */
  method CompleteFrom(r: Renderer, node: FiberId, fuel: Steps) returns (outcome: Outcome)
    requires r.Valid() && node in r.fibers
    modifies r
    ensures r.Valid()
    ensures var u := Unwind(old(r.fibers), old(r.sibRank), old(r.nextInstance), node, fuel);
      && outcome == u.outcome && r.fibers == u.fibers && r.log == old(r.log) + u.ops && r.nextInstance == u.instances
      && (outcome == Normal ==> r.workInProgress == u.next)
    ensures r.nextFiber == old(r.nextFiber) && r.sibRank == old(r.sibRank)
    ensures r.hooks == old(r.hooks) && r.queues == old(r.queues)
    decreases fuel
  {
    ghost var a, inst, log0 := r.fibers, r.nextInstance, r.log;
    outcome := CompleteWork.CompleteWork(r, node);
    UnwindStops(a, r.sibRank, inst, node, fuel);
    if outcome != Normal {
      return;
    }
    var f := r.fibers[node];
    if f.sibling.Some? {
      r.SetWorkInProgress(f.sibling);
      return;
    }
    if f.ret.None? {
      r.SetWorkInProgress(None);
      return;
    }
    if fuel.Out? {
      return Diverges;
    }
    ghost var c := Complete(a, r.sibRank, inst, node);
    UnwindClimbs(a, r.sibRank, inst, node, fuel, c, f.ret.value);
    ghost var log1, b, i1, up := r.log, r.fibers, r.nextInstance, f.ret.value;
    assert log1 == log0 + c.ops && b == c.fibers && i1 == c.instances;
    r.SetWorkInProgress(f.ret);
    outcome := CompleteFrom(r, f.ret.value, fuel.rest);
    ghost var u := Unwind(b, r.sibRank, i1, up, fuel.rest);
    assert r.log == log1 + u.ops;
    AppendAssoc(log0, c.ops, u.ops);
  }

  // ---------------------------------------------------------------------
  // prepareFreshStack, performUnitOfWork, workLoop

  /** `prepareFreshStack(root)`: the work loop starts at a twin of the root's current fiber, with empty props. */
  method PrepareFreshStack(r: Renderer, root: FiberRootNode)
    requires r.Valid() && root.current in r.fibers
    modifies r
    ensures r.Valid() && r.workInProgress.Some?
    ensures (r.fibers, r.workInProgress.value) == WorkInProgress(old(r.fibers), old(r.nextFiber), root.current, Obj(map[]))
    ensures old(r.fibers).Keys <= r.fibers.Keys
    ensures r.log == old(r.log) && r.nextInstance == old(r.nextInstance)
  {
    var wip := CreateWorkInProgress(r, root.current, Obj(map[]));
    r.SetWorkInProgress(Some(wip));
  }

  /** The arena after `fiber.memoizedProps = fiber.pendingProps`. */
  ghost function Memoized(a: Arena, fiber: FiberId): (b: Arena)
    requires fiber in a
    ensures b.Keys == a.Keys && b[fiber].memoizedProps == a[fiber].pendingProps
    ensures forall id :: id in a ==> b[id] == a[id].(memoizedProps := b[id].memoizedProps)
  {
    a[fiber := a[fiber].(memoizedProps := a[fiber].pendingProps)]
  }

  /**
   * `performUnitOfWork(fiber)`: begin `fiber`, record its props as
   * rendered, then either move down to the child `beginWork` returned or,
   * at a leaf, complete upwards. A text fiber or a fragment is a leaf
   * whose begin step changes nothing. `began` and `begun` are what
   * `beginWork` returned and the arena it left.
   */
  method PerformUnitOfWork(r: Renderer, env: Env, fiber: FiberId)
    returns (outcome: Outcome, ghost began: BeginWork.Begun, ghost begun: Arena)
    requires r.Valid() && fiber in r.fibers
    modifies r
    ensures r.Valid() && old(r.fibers).Keys <= r.fibers.Keys && old(r.log) <= r.log
    ensures old(r.fibers).Keys <= begun.Keys && fiber in begun
    ensures var tag := old(r.fibers)[fiber].tag;
      (tag == HostText || tag == Fragment) ==> began == BeginWork.Next(None) && begun == old(r.fibers)
    ensures var tag := old(r.fibers)[fiber].tag;
      (tag == HostRoot || tag == HostComponent || tag == FunctionComponent) && began.Next? ==>
      began.next == begun[fiber].child
    ensures began.Thrown? ==> outcome == Outcome.Threw && r.fibers == begun && r.log == old(r.log)
    ensures began.Next? && began.next.Some? ==>
      && outcome == Normal && r.fibers == Memoized(begun, fiber) && r.log == old(r.log)
      && r.workInProgress == began.next
    ensures began.Next? && began.next.None? ==>
      var a := Memoized(begun, fiber);
      && SiblingRanked(a, r.sibRank)
      && var u := Unwind(a, r.sibRank, old(r.nextInstance), fiber, StepsOf(Budget(a)));
      && outcome == u.outcome && r.fibers == u.fibers && r.log == old(r.log) + u.ops
      && (outcome == Normal ==> r.workInProgress == u.next)
    ensures var tag := old(r.fibers)[fiber].tag;
      (tag == HostText || tag == Fragment) ==>
      var a := Memoized(old(r.fibers), fiber);
      var u := Unwind(a, old(r.sibRank), old(r.nextInstance), fiber, StepsOf(Budget(a)));
      && outcome == u.outcome && r.fibers == u.fibers && r.log == old(r.log) + u.ops
      && (outcome == Normal ==> r.workInProgress == u.next)
  {
    ghost var a0, rank0, inst0 := r.fibers, r.sibRank, r.nextInstance;
    ghost var leaf := a0[fiber].tag == HostText || a0[fiber].tag == Fragment;
    var next := BeginWork.BeginWork(r, env, fiber);
    began, begun := next, r.fibers;
    if next.Thrown? {
      return Outcome.Threw, began, begun;
    }
    var f := r.fibers[fiber];
    assert FiberOk(r.fibers, f, r.hooks, r.queues);
    r.SetFiber(fiber, f.(memoizedProps := f.pendingProps));
    if next.next.None? {
      assert leaf ==> r.fibers == Memoized(a0, fiber) && r.sibRank == rank0 && r.nextInstance == inst0;
      outcome := CompleteUnitOfWork(r, fiber);
    } else {
      assert OptIn(next.next, r.fibers) by {
        assert FiberOk(r.fibers, r.fibers[fiber], r.hooks, r.queues);
      }
      r.SetWorkInProgress(next.next);
      outcome := Normal;
    }
  }

  /**
   * `workLoop()`: perform units of work while there is one. `fuel` bounds
   * the number of units; running out of it is `Diverges`. A unit that
   * throws ends the loop with `Threw`.
   */
  method WorkLoop(r: Renderer, env: Env, fuel: nat) returns (outcome: Outcome)
    requires r.Valid()
    modifies r
    ensures r.Valid() && old(r.fibers).Keys <= r.fibers.Keys && old(r.log) <= r.log
    ensures outcome == Normal ==> r.workInProgress.None?
  {
    var steps := fuel;
    while r.workInProgress.Some?
      invariant r.Valid() && old(r.fibers).Keys <= r.fibers.Keys && old(r.log) <= r.log
      decreases steps
    {
      if steps == 0 {
        return Diverges;
      }
      ghost var began, begun;
      outcome, began, begun := PerformUnitOfWork(r, env, r.workInProgress.value);
      if outcome != Normal {
        return;
      }
      steps := steps - 1;
    }
    return Normal;
  }

  // ---------------------------------------------------------------------
  // commitRoot, renderRoot, scheduleUpdateOnFiber

  /** The finished tree asks for the mutation pass: its root or its subtree carries a mutation flag. */
  predicate HasEffect(f: Fiber) {
    f.subtreeFlags * MutationMask != NoFlags || f.flags * MutationMask != NoFlags
  }

  /**
   * `commitRoot(root)`: take the finished tree off the root; when it
   * carries mutation flags, run the mutation pass and, once the pass is
   * through, make the finished tree the root's current tree. Without a
   * finished tree or without flags nothing else changes.
   */
  method CommitRoot(r: Renderer, root: FiberRootNode) returns (outcome: Outcome)
    requires r.Valid() && OptIn(root.finishedWork, r.fibers)
    modifies r, root
    ensures r.Valid() && root.finishedWork.None?
    ensures var fw := old(root.finishedWork);
      (fw.None? || !HasEffect(old(r.fibers)[fw.value])) ==>
      && outcome == Normal && r.fibers == old(r.fibers) && r.log == old(r.log) && root.current == old(root.current)
    ensures var fw := old(root.finishedWork);
      fw.Some? && HasEffect(old(r.fibers)[fw.value]) ==>
      var c := MutationEffectsOf(old(r.fibers), old(r.sibRank), fw.value);
      && outcome == c.outcome && r.fibers == c.fibers && r.log == old(r.log) + c.ops
      && root.current == (if outcome == Normal then fw.value else old(root.current))
    ensures r.nextFiber == old(r.nextFiber) && r.sibRank == old(r.sibRank) && r.Rest() == old(r.Rest())
  {
    var finishedWork := root.finishedWork;
    if finishedWork.None? {
      return Normal;
    }
    root.finishedWork := None;
    var fw := finishedWork.value;
    if HasEffect(r.fibers[fw]) {
      outcome := CommitMutationEffects(r, fw);
      if outcome == Normal {
        root.current := fw;
      }
    } else {
      outcome := Normal;
    }
  }

  /**
   * The render half of `renderRoot(root)`: start from a fresh stack and
   * run the work loop. An error thrown by the work loop is caught: the
   * cursor is cleared and the retried loop has no work. `fuel` bounds the
   * units of work.
   */
  method RenderPass(r: Renderer, env: Env, root: FiberRootNode, fuel: nat) returns (outcome: Outcome)
    requires r.Valid() && root.current in r.fibers
    modifies r
    ensures r.Valid() && old(r.fibers).Keys <= r.fibers.Keys && old(r.log) <= r.log
    ensures outcome != Diverges ==> r.workInProgress.None?
  {
    PrepareFreshStack(r, root);
    outcome := WorkLoop(r, env, fuel);
    if outcome == Outcome.Threw {
      r.SetWorkInProgress(None);
    }
  }

  /**
   * `renderRoot(root)`: render, hand the root's alternate to the commit as
   * the finished tree and commit it, also when the render threw and what
   * was built so far is all there is. `rendered` and `renderedLog` are the
   * arena and the log the render left for the commit.
   */
  method RenderRoot(r: Renderer, env: Env, root: FiberRootNode, fuel: nat)
    returns (outcome: Outcome, ghost rendered: Arena, ghost renderedLog: seq<HostOp>)
    requires r.Valid() && root.current in r.fibers
    modifies r, root
    ensures r.Valid() && old(r.fibers).Keys <= r.fibers.Keys && old(r.log) <= r.log
    ensures outcome != Diverges ==> r.workInProgress.None? && root.finishedWork.None?
    ensures outcome != Diverges ==>
      && old(r.fibers).Keys <= rendered.Keys && old(r.log) <= renderedLog
      && SiblingRanked(rendered, r.sibRank)
      && OptIn(rendered[old(root.current)].alternate, rendered)
      && var fw := rendered[old(root.current)].alternate;
      && ((fw.None? || !HasEffect(rendered[fw.value])) ==>
            outcome == Normal && r.fibers == rendered && r.log == renderedLog && root.current == old(root.current))
      && (fw.Some? && HasEffect(rendered[fw.value]) ==>
            var c := MutationEffectsOf(rendered, r.sibRank, fw.value);
            && outcome == c.outcome && r.fibers == c.fibers && r.log == renderedLog + c.ops
            && root.current == (if outcome == Normal then fw.value else old(root.current)))
  {
    outcome := RenderPass(r, env, root, fuel);
    rendered, renderedLog := r.fibers, r.log;
    if outcome == Diverges {
      return;
    }
    assert FiberOk(r.fibers, r.fibers[root.current], r.hooks, r.queues);
    root.finishedWork := r.fibers[root.current].alternate;
    outcome := CommitRoot(r, root);
  }

  /** The root objects the arena's fibers point at. */
  ghost function RootsIn(a: Arena): (roots: set<FiberRootNode>)
    ensures forall id :: id in a && a[id].stateNode.RootNode? ==> a[id].stateNode.root in roots
  {
    set id | id in a && a[id].stateNode.RootNode? :: a[id].stateNode.root
  }

  /**
   * `scheduleUpdateOnFiber(fiber)`: find the root above `fiber` and render
   * it. With no root above, `renderRoot(null)` throws at once and nothing
   * changes, as it does when the root's `current` names no fiber of the
   * arena; a climb that does not end is `Diverges`. Otherwise the root's
   * render and commit are those of `renderRoot`: the root's alternate in the
   * rendered arena is committed, and becomes current once the commit is through.
   */
  method ScheduleUpdateOnFiber(r: Renderer, env: Env, fiber: FiberId, fuel: nat)
    returns (outcome: Outcome, ghost rendered: Arena, ghost renderedLog: seq<HostOp>)
    requires r.Valid() && fiber in r.fibers
    modifies r, RootsIn(r.fibers)
    ensures r.Valid() && old(r.fibers).Keys <= r.fibers.Keys && old(r.log) <= r.log
    ensures TopOf(old(r.fibers), fiber, Budget(old(r.fibers))).None? ==> outcome == Diverges
    ensures TopOf(old(r.fibers), fiber, Budget(old(r.fibers))).Some? && RootAbove(old(r.fibers), fiber).None? ==>
      outcome == Outcome.Threw && r.fibers == old(r.fibers) && r.log == old(r.log) && r.Rest() == old(r.Rest())
    ensures RootAbove(old(r.fibers), fiber).Some? ==>
      var root := RootAbove(old(r.fibers), fiber).value;
      old(root.current) !in old(r.fibers) ==>
      && outcome == Outcome.Threw && r.fibers == old(r.fibers) && r.log == old(r.log) && r.Rest() == old(r.Rest())
      && root.current == old(root.current) && root.finishedWork == old(root.finishedWork)
    ensures RootAbove(old(r.fibers), fiber).Some? ==>
      var root := RootAbove(old(r.fibers), fiber).value;
      old(root.current) in old(r.fibers) && outcome != Diverges ==>
      && r.workInProgress.None? && root.finishedWork.None?
      && old(r.fibers).Keys <= rendered.Keys && old(r.log) <= renderedLog
      && SiblingRanked(rendered, r.sibRank)
      && OptIn(rendered[old(root.current)].alternate, rendered)
      && var fw := rendered[old(root.current)].alternate;
      && ((fw.None? || !HasEffect(rendered[fw.value])) ==>
            outcome == Normal && r.fibers == rendered && r.log == renderedLog && root.current == old(root.current))
      && (fw.Some? && HasEffect(rendered[fw.value]) ==>
            var c := MutationEffectsOf(rendered, r.sibRank, fw.value);
            && outcome == c.outcome && r.fibers == c.fibers && r.log == renderedLog + c.ops
            && root.current == (if outcome == Normal then fw.value else old(root.current)))
  {
    rendered, renderedLog := r.fibers, r.log;
    var ended, root := MarkUpdateFromFiberToRoot(r, fiber);
    if !ended {
      return Diverges, rendered, renderedLog;
    }
    if root.None? {
      return Outcome.Threw, rendered, renderedLog;
    }
    if root.value.current !in r.fibers {
      return Outcome.Threw, rendered, renderedLog;
    }
    outcome, rendered, renderedLog := RenderRoot(r, env, root.value, fuel);
  }
}
