/**
 * The begin phase: per-tag work on one work-in-progress fiber. The root
 * drains its pending update, a host component reads its children from its
 * props, a function component renders with hooks, and all three diff the
 * resulting children against the children of their twin.
 */
module BeginWork {
  import opened JsValues
  import opened Jsx
  import opened Fibers
  import opened ChildFibers
  import opened ChildFiberProps
  import opened FiberHooks

  /** What `beginWork` hands back: the next fiber to work on (`null` for a leaf), or a thrown error. */
  datatype Begun = Next(next: Option<FiberId>) | Thrown

  /** The old first child the children of `wip` are diffed against: its twin's `child`, none on mount. */
  function OldChild(a: Arena, wip: FiberId): Option<FiberId>
    requires wip in a && OptIn(a[wip].alternate, a)
  {
    if a[wip].alternate.Some? then a[a[wip].alternate.value].child else None
  }

  /** What diffing the children of `wip` needs of the arena. */
  ghost predicate ReconcileOk(a: Arena, rank: map<FiberId, nat>, freshId: FiberId, wip: FiberId) {
    ScanOk(a, rank, freshId, wip) && OptIn(OldChild(a, wip), a)
  }

  lemma ValidReconcileOk(r: Renderer, wip: FiberId)
    requires r.Valid() && wip in r.fibers
    ensures ReconcileOk(r.fibers, r.sibRank, r.nextFiber, wip)
  {
    ValidScanOk(r);
    var alt := r.fibers[wip].alternate;
    if alt.Some? {
      assert FiberOk(r.fibers, r.fibers[alt.value], r.hooks, r.queues);
    }
  }

  /**
   * `reconcileChildren` on arena values: a fiber with a twin is diffed with
   * tracking against the twin's children, one without is mounted without
   * tracking and without old children; `wip.child` is set to the result.
   */
  ghost function ChildrenOf(a: Arena, rank: map<FiberId, nat>, freshId: FiberId, wip: FiberId,
                            children: Value): (res: (Arena, Option<FiberId>))
    requires ReconcileOk(a, rank, freshId, wip)
    ensures wip in res.0 && res.0[wip].child == res.1 && OptIn(res.1, res.0) && a.Keys <= res.0.Keys
  {
    var (b, child) := ChildrenScan(a, rank, freshId, a[wip].alternate.Some?, wip, OldChild(a, wip), children);
    (b[wip := b[wip].(child := child)], child)
  }

  /**
   * What `reconcileChildren` does to `wip`: on mount nothing is recorded for
   * deletion; on update exactly the twin's old children that the diff drops
   * are recorded, in chain order. Either way `child` is the new child, which
   * exists for elements, strings and numbers only.
   */
  lemma ChildrenOfParent(a: Arena, rank: map<FiberId, nat>, freshId: FiberId, wip: FiberId, children: Value)
    requires ReconcileOk(a, rank, freshId, wip)
    requires Apart(a, wip, ChainOf(a, rank, OldChild(a, wip)))
    ensures var res := ChildrenOf(a, rank, freshId, wip, children);
      var chain := ChainOf(a, rank, OldChild(a, wip));
      && res.0[wip] == (if a[wip].alternate.Some? then RecordDeletions(a[wip], DiffDeleted(a, chain, children))
                        else a[wip]).(child := res.1)
      && (res.1.Some? <==> IsValidElement(children) || children.Str? || children.Num?)
  {
    ChildrenScanParent(a, rank, freshId, a[wip].alternate.Some?, wip, OldChild(a, wip), children);
  }

  /** Mounting an element creates its fiber under `wip`, without `Placement`. */
  lemma MountElementChild(a: Arena, rank: map<FiberId, nat>, freshId: FiberId, wip: FiberId, element: Value)
    requires ReconcileOk(a, rank, freshId, wip) && a[wip].alternate.None? && IsValidElement(element)
    ensures var res := ChildrenOf(a, rank, freshId, wip, element);
      res.1 == Some(freshId) && res.0[freshId] == Created(element, wip) && res.0[freshId].flags == NoFlags
  {
    assert ChainOf(a, rank, None) == [];
    ChildrenScanElementChild(a, rank, freshId, false, wip, None, element);
  }

  /** `reconcileChildren`. */
  method ReconcileChildren(r: Renderer, wip: FiberId, children: Value)
    requires r.Valid() && wip in r.fibers
    modifies r
    ensures r.Valid()
    ensures ReconcileOk(old(r.fibers), old(r.sibRank), old(r.nextFiber), wip)
    ensures r.fibers == ChildrenOf(old(r.fibers), old(r.sibRank), old(r.nextFiber), wip, children).0
    ensures r.Rest() == old(r.Rest()) && r.log == old(r.log)
  {
    ValidReconcileOk(r, wip);
    var current := r.fibers[wip].alternate;
    var child;
    if current.Some? {
      child := ReconcileChildFibers(r, true, wip, r.fibers[current.value].child, children);
    } else {
      child := ReconcileChildFibers(r, false, wip, None, children);
    }
    r.SetFiber(wip, r.fibers[wip].(child := child));
  }

  /**
   * `updateHostRoot`: the pending update is taken out of the queue (the slot
   * is left empty), processed against the old state into the new
   * `memoizedState`, and that state is the child description diffed. A root
   * without an update queue throws.
   */
  method UpdateHostRoot(r: Renderer, env: Env, wip: FiberId) returns (res: Begun)
    requires r.Valid() && wip in r.fibers
    modifies r
    ensures r.Valid()
    ensures old(r.fibers)[wip].updateQueue.None? ==>
      res.Thrown? && r.fibers == old(r.fibers) && r.queues == old(r.queues)
    ensures old(r.fibers)[wip].updateQueue.Some? ==>
      var f := old(r.fibers)[wip];
      var q := f.updateQueue.value;
      && q in old(r.queues)
      && var state := env.processUpdateQueue(f.memoizedState, old(r.queues)[q].pending);
         var a := old(r.fibers)[wip := f.(memoizedState := Plain(state))];
         && r.queues == old(r.queues)[q := old(r.queues)[q].(pending := None)]
         && ReconcileOk(a, old(r.sibRank), old(r.nextFiber), wip)
         && r.fibers == ChildrenOf(a, old(r.sibRank), old(r.nextFiber), wip, state).0
         && res == Next(r.fibers[wip].child)
    ensures old(r.fibers).Keys <= r.fibers.Keys
    ensures r.Others() == old(r.Others()) && r.log == old(r.log)
  {
    var f := r.fibers[wip];
    if f.updateQueue.None? {
      return Thrown;
    }
    var q := f.updateQueue.value;
    assert FiberOk(r.fibers, f, r.hooks, r.queues);
    var pending := r.queues[q].pending;
    GrowKeepsOk(r.fibers, r.nextFiber, r.hooks, r.queues, r.sibRank, r.hooks, r.queues[q := r.queues[q].(pending := None)]);
    r.queues := r.queues[q := r.queues[q].(pending := None)];
    var state := env.processUpdateQueue(f.memoizedState, pending);
    r.SetFiber(wip, f.(memoizedState := Plain(state)));
    ReconcileChildren(r, wip, state);
    res := Next(r.fibers[wip].child);
  }

  /** `updateHostComponent`: the children are `pendingProps.children`; reading it off null props throws. */
  method UpdateHostComponent(r: Renderer, wip: FiberId) returns (res: Begun)
    requires r.Valid() && wip in r.fibers
    modifies r
    ensures r.Valid()
    ensures var props := old(r.fibers)[wip].pendingProps;
      (props.Null? || props.Undefined?) ==> res.Thrown? && r.fibers == old(r.fibers)
    ensures var props := old(r.fibers)[wip].pendingProps;
      !(props.Null? || props.Undefined?) ==>
      && ReconcileOk(old(r.fibers), old(r.sibRank), old(r.nextFiber), wip)
      && r.fibers == ChildrenOf(old(r.fibers), old(r.sibRank), old(r.nextFiber), wip, Get(props, "children")).0
      && res == Next(r.fibers[wip].child)
    ensures old(r.fibers).Keys <= r.fibers.Keys
    ensures r.Rest() == old(r.Rest()) && r.log == old(r.log)
  {
    var children := ReadProp(r.fibers[wip].pendingProps, "children");
    if children.None? {
      return Thrown;
    }
    ReconcileChildren(r, wip, children.value);
    res := Next(r.fibers[wip].child);
  }

  /**
   * `updateFunctionComponent`: the component's result, rendered with hooks,
   * is the child description diffed; a throwing render throws, leaving the
   * hooks it mounted and the rendering fiber set.
   */
  method UpdateFunctionComponent(r: Renderer, env: Env, wip: FiberId) returns (res: Begun)
    requires r.Valid() && wip in r.fibers
    modifies r
    ensures r.Valid()
    ensures var f := old(r.fibers)[wip];
      var call := CallComponent(env, f);
      var dispatcher := old(r.mountDispatcher) || f.alternate.None?;
      res.Thrown? <==> !(call.Rendered? && (dispatcher || call.hookCalls == []))
    ensures res.Next? ==>
      var f := old(r.fibers)[wip];
      var call := CallComponent(env, f);
      var reset := old(HookStateOf(r)).(fibers := old(r.fibers)[wip := f.(memoizedState := Plain(Null))]);
      var rendered := MountedState(reset, wip, |call.hookCalls|);
      && ReconcileOk(rendered.fibers, old(r.sibRank), old(r.nextFiber), wip)
      && r.fibers == ChildrenOf(rendered.fibers, old(r.sibRank), old(r.nextFiber), wip, call.children).0
      && res.next == r.fibers[wip].child
    ensures res.Thrown? ==>
      var f := old(r.fibers)[wip];
      var call := CallComponent(env, f);
      var dispatcher := old(r.mountDispatcher) || f.alternate.None?;
      var reset := old(HookStateOf(r)).(fibers := old(r.fibers)[wip := f.(memoizedState := Plain(Null))]);
      && HookStateOf(r) == (if dispatcher || call.hookCalls == [] then MountedState(reset, wip, |call.hookCalls|) else reset)
      && r.currentlyRenderingFiber == Some(wip)
    ensures old(r.fibers).Keys <= r.fibers.Keys
    ensures r.log == old(r.log) && r.nextInstance == old(r.nextInstance)
    ensures r.workInProgress == old(r.workInProgress)
  {
    var children := RenderWithHooks(r, env, wip);
    if children.None? {
      return Thrown;
    }
    ReconcileChildren(r, wip, children.value);
    res := Next(r.fibers[wip].child);
  }

  /**
   * `beginWork`: dispatch on the tag. The root, a host component and a
   * function component each run their own update (as stated for
   * `updateHostRoot`, `updateHostComponent` and `updateFunctionComponent`)
   * and return the `child` it has just set; a text fiber or an unrecognised
   * tag is a leaf and changes nothing.
   */
  method BeginWork(r: Renderer, env: Env, wip: FiberId) returns (res: Begun)
    requires r.Valid() && wip in r.fibers
    modifies r
    ensures r.Valid() && old(r.fibers).Keys <= r.fibers.Keys
    ensures var tag := old(r.fibers)[wip].tag;
      (tag == HostText || tag == Fragment) ==>
      res == Next(None) && r.fibers == old(r.fibers) && r.sibRank == old(r.sibRank) && r.Rest() == old(r.Rest())
    ensures var tag := old(r.fibers)[wip].tag;
      (tag == HostRoot || tag == HostComponent || tag == FunctionComponent) && res.Next? ==>
      res.next == r.fibers[wip].child
    ensures var f := old(r.fibers)[wip];
      f.tag == HostRoot ==>
      && (f.updateQueue.None? ==> res.Thrown? && r.fibers == old(r.fibers) && r.queues == old(r.queues))
      && (f.updateQueue.Some? ==>
            var q := f.updateQueue.value;
            && q in old(r.queues)
            && var state := env.processUpdateQueue(f.memoizedState, old(r.queues)[q].pending);
               var a := old(r.fibers)[wip := f.(memoizedState := Plain(state))];
               && r.queues == old(r.queues)[q := old(r.queues)[q].(pending := None)]
               && ReconcileOk(a, old(r.sibRank), old(r.nextFiber), wip)
               && r.fibers == ChildrenOf(a, old(r.sibRank), old(r.nextFiber), wip, state).0
               && res.Next?)
    ensures var f := old(r.fibers)[wip];
      f.tag == HostComponent ==>
      && ((f.pendingProps.Null? || f.pendingProps.Undefined?) ==> res.Thrown? && r.fibers == old(r.fibers))
      && (!(f.pendingProps.Null? || f.pendingProps.Undefined?) ==>
            && ReconcileOk(old(r.fibers), old(r.sibRank), old(r.nextFiber), wip)
            && r.fibers == ChildrenOf(old(r.fibers), old(r.sibRank), old(r.nextFiber), wip, Get(f.pendingProps, "children")).0
            && res.Next?)
    ensures var f := old(r.fibers)[wip];
      f.tag == FunctionComponent ==>
      var call := CallComponent(env, f);
      var dispatcher := old(r.mountDispatcher) || f.alternate.None?;
      && (res.Thrown? <==> !(call.Rendered? && (dispatcher || call.hookCalls == [])))
      && (res.Next? ==>
            var reset := old(HookStateOf(r)).(fibers := old(r.fibers)[wip := f.(memoizedState := Plain(Null))]);
            var rendered := MountedState(reset, wip, |call.hookCalls|);
            && ReconcileOk(rendered.fibers, old(r.sibRank), old(r.nextFiber), wip)
            && r.fibers == ChildrenOf(rendered.fibers, old(r.sibRank), old(r.nextFiber), wip, call.children).0)
      && (res.Thrown? ==>
            var reset := old(HookStateOf(r)).(fibers := old(r.fibers)[wip := f.(memoizedState := Plain(Null))]);
            && HookStateOf(r) == (if dispatcher || call.hookCalls == [] then MountedState(reset, wip, |call.hookCalls|) else reset)
            && r.currentlyRenderingFiber == Some(wip))
    ensures r.log == old(r.log) && r.nextInstance == old(r.nextInstance)
    ensures r.workInProgress == old(r.workInProgress)
  {
    match r.fibers[wip].tag
    case HostRoot =>
      res := UpdateHostRoot(r, env, wip);
    case HostComponent =>
      res := UpdateHostComponent(r, wip);
    case FunctionComponent =>
      res := UpdateFunctionComponent(r, env, wip);
    case HostText =>
      res := Next(None);
    case Fragment =>
      res := Next(None);
  }
}
