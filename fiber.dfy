/**
 * The fiber data model: fibers live in an arena (a map from id to record),
 * every link (`return`, `sibling`, `child`, `alternate`, the deletion
 * list) is an id, and the mutable state that the reconciler's files keep at
 * module level lives in one `Renderer` object.
 */
module Fibers {
  import opened JsValues

  type FiberId = nat
  type HookId = nat
  type QueueId = nat
  type InstanceId = nat

  /** The kinds of fiber. */
  datatype WorkTag = FunctionComponent | HostRoot | HostComponent | HostText | Fragment

  /** Effect bits; a bitset is a set of them, `|` is union and `& ~X` is set difference. */
  datatype Flag = Placement | Update | ChildDeletion
  type Flags = set<Flag>
  const NoFlags: Flags := {}
  const MutationMask: Flags := {Placement, Update, ChildDeletion}

  /** `stateNode`: null, a host instance, or (for the host root fiber) the root object. */
  datatype StateNode = NoInstance | Instance(inst: InstanceId) | RootNode(root: FiberRootNode)

  /** `memoizedState`: a plain value (the element tree of a root), or the first hook record. */
  datatype State = Plain(v: Value) | HookList(head: HookId)

  /** An update carries an action: a new value or a function of the previous one. */
  datatype Update = UpdateOf(action: Value)

  /** A `dispatch` function: `dispatchSetState` bound to a fiber and a queue. */
  datatype Dispatch = Dispatch(fiber: Option<FiberId>, queue: QueueId)

  /** An update queue: the single pending slot and the bound dispatch function. */
  datatype UpdateQueue = UpdateQueue(pending: Option<Update>, dispatch: Option<Dispatch>)

  /** A hook record of the per-render hook list. */
  datatype Hook = Hook(memoizedState: Value, updateQueue: Option<QueueId>, next: Option<HookId>)

  /** The fields of a `FiberNode`; `ret` is the `return` link. */
  datatype Fiber = Fiber(
    tag: WorkTag,
    key: Value,
    stateNode: StateNode,
    fiberType: Value,
    ret: Option<FiberId>,
    sibling: Option<FiberId>,
    child: Option<FiberId>,
    index: nat,
    ref: Value,
    pendingProps: Value,
    memoizedProps: Value,
    memoizedState: State,
    updateQueue: Option<QueueId>,
    alternate: Option<FiberId>,
    flags: Flags,
    subtreeFlags: Flags,
    deletions: Option<seq<FiberId>>)

  type Arena = map<FiberId, Fiber>

  /** Host operations, recorded in order in a ghost log instead of touching a real surface. */
  datatype HostOp =
    | CreateInstance(inst: InstanceId, elementType: Value, props: Value)
    | CreateTextInstance(inst: InstanceId, content: Value)
    | AppendInitialChild(parent: StateNode, child: StateNode)
    | AppendChildToContainer(container: StateNode, child: StateNode)
    | InsertChildToContainer(child: StateNode, container: StateNode, before: StateNode)
    | CommitTextUpdate(textInstance: StateNode, text: Value)
    | RemoveChild(child: StateNode, container: StateNode)

  /**
   * What a component function does when called: its `useState` calls, then
   * either its result or a throw (after the calls it made before throwing).
   */
  datatype ComponentResult = Rendered(hookCalls: seq<Value>, children: Value) | Threw(hookCalls: seq<Value>)

  /**
   * Code the reconciler calls but that is not part of this model: the update
   * queue helpers, user component functions and state initializers.
   */
  datatype Env = Env(
    processUpdateQueue: (State, Option<Update>) -> Value,
    enqueueUpdate: (UpdateQueue, Update) -> UpdateQueue,
    render: (nat, Value) -> ComponentResult,
    callInitializer: nat -> Value)

  /** A fresh `FiberNode(tag, pendingProps, key)`. */
  function NewFiber(tag: WorkTag, pendingProps: Value, key: Value): (f: Fiber)
    ensures f.tag == tag && f.pendingProps == pendingProps && f.key == key
    ensures f.flags == NoFlags && f.subtreeFlags == NoFlags
    ensures f.ret.None? && f.sibling.None? && f.child.None? && f.alternate.None?
    ensures f.index == 0 && f.stateNode.NoInstance? && f.fiberType == Null && f.ref == Null
    ensures f.memoizedProps == Null && f.memoizedState == Plain(Null) && f.updateQueue.None?
    ensures f.deletions.None?
  {
    Fiber(tag, key, NoInstance, Null, None, None, None, 0, Null, pendingProps, Null,
          Plain(Null), None, None, NoFlags, NoFlags, None)
  }

  predicate OptIn<K, V>(o: Option<K>, m: map<K, V>) {
    o.Some? ==> o.value in m
  }

  /** Every link of `f` names a fiber of the arena. */
  ghost predicate LinksIn(a: Arena, f: Fiber) {
    && OptIn(f.ret, a) && OptIn(f.sibling, a) && OptIn(f.child, a) && OptIn(f.alternate, a)
    && (f.deletions.Some? ==> forall d :: d in f.deletions.value ==> d in a)
  }

  /**
   * A ranking under which every `sibling` link goes down: every sibling
   * chain is finite. (This source only ever sets `sibling` to null.)
   */
  ghost predicate SiblingRanked(a: Arena, rank: map<FiberId, nat>) {
    forall id :: id in a ==>
      && id in rank
      && (a[id].sibling.Some? ==>
            a[id].sibling.value in a && a[id].sibling.value in rank && rank[a[id].sibling.value] < rank[id])
  }

  /** Position i of `chain` holds a fiber whose `sibling` is the next position, or null at the end. */
  ghost predicate LinkAt(a: Arena, chain: seq<FiberId>, i: nat)
    requires i < |chain|
  {
    chain[i] in a && a[chain[i]].sibling == (if i + 1 < |chain| then Some(chain[i + 1]) else None)
  }

  /** `chain` lists the fibers met by following `sibling` from `first` until null. */
  ghost predicate IsChain(a: Arena, first: Option<FiberId>, chain: seq<FiberId>) {
    && (first.None? <==> chain == [])
    && (first.Some? ==> chain[0] == first.value && first.value in a)
    && (forall i: nat :: i < |chain| ==> LinkAt(a, chain, i))
  }

  /** The sibling chain from `first`, which exists under a ranking. */
  ghost function ChainOf(a: Arena, rank: map<FiberId, nat>, first: Option<FiberId>): (chain: seq<FiberId>)
    requires SiblingRanked(a, rank) && OptIn(first, a)
    ensures IsChain(a, first, chain)
    ensures forall x :: x in chain ==> x in a
    decreases if first.Some? then rank[first.value] + 1 else 0
  {
    if first.None? then []
    else
      var rest := ChainOf(a, rank, a[first.value].sibling);
      var chain := [first.value] + rest;
      assert LinkAt(a, chain, 0);
      assert forall i: nat :: 0 < i < |chain| ==> LinkAt(a, rest, i - 1) ==> LinkAt(a, chain, i);
      chain
  }

  lemma TailIsChain(a: Arena, first: Option<FiberId>, c: seq<FiberId>)
    requires first.Some? && IsChain(a, first, c)
    ensures IsChain(a, a[first.value].sibling, c[1..])
  {
    assert LinkAt(a, c, 0);
    if 1 < |c| {
      assert LinkAt(a, c, 1);
    }
    forall i: nat | i < |c[1..]|
      ensures LinkAt(a, c[1..], i)
    {
      assert LinkAt(a, c, i + 1);
    }
  }

  /** A chain is determined by where it starts. */
  lemma {:induction false} ChainUnique(a: Arena, first: Option<FiberId>, c1: seq<FiberId>, c2: seq<FiberId>)
    requires IsChain(a, first, c1) && IsChain(a, first, c2)
    ensures c1 == c2
    decreases |c1|
  {
    if first.Some? {
      var next := a[first.value].sibling;
      TailIsChain(a, first, c1);
      TailIsChain(a, first, c2);
      ChainUnique(a, next, c1[1..], c2[1..]);
      assert c1 == [c1[0]] + c1[1..];
      assert c2 == [c2[0]] + c2[1..];
    }
  }

  /** A fiber record whose references all resolve: fibers in `a`, hooks and queues in their arenas. */
  ghost predicate FiberOk(a: Arena, f: Fiber, hooks: map<HookId, Hook>, queues: map<QueueId, UpdateQueue>) {
    && LinksIn(a, f)
    && OptIn(f.updateQueue, queues)
    && (f.memoizedState.HookList? ==> f.memoizedState.head in hooks)
  }

  /** The fiber arena is closed, below its fresh-id counter, and sibling-ranked. */
  ghost predicate FibersOk(a: Arena, next: nat, hooks: map<HookId, Hook>, queues: map<QueueId, UpdateQueue>,
                           rank: map<FiberId, nat>) {
    && (forall id :: id in a ==> id < next && FiberOk(a, a[id], hooks, queues))
    && SiblingRanked(a, rank)
  }

  lemma AddKeepsOk(a: Arena, next: nat, hooks: map<HookId, Hook>, queues: map<QueueId, UpdateQueue>,
                   rank: map<FiberId, nat>, f: Fiber)
    requires FibersOk(a, next, hooks, queues, rank) && FiberOk(a, f, hooks, queues) && f.sibling.None?
    ensures next !in a && FibersOk(a[next := f], next + 1, hooks, queues, rank[next := 0])
  {
    var b := a[next := f];
    forall id | id in b
      ensures id < next + 1 && FiberOk(b, b[id], hooks, queues)
    {
      assert LinksIn(a, b[id]);
    }
  }

  /** New hook records and queues leave every fiber record resolving. */
  lemma GrowKeepsOk(a: Arena, next: nat, hooks: map<HookId, Hook>, queues: map<QueueId, UpdateQueue>,
                    rank: map<FiberId, nat>, hooks': map<HookId, Hook>, queues': map<QueueId, UpdateQueue>)
    requires FibersOk(a, next, hooks, queues, rank)
    requires hooks.Keys <= hooks'.Keys && queues.Keys <= queues'.Keys
    ensures FibersOk(a, next, hooks', queues', rank)
  {
    forall id | id in a
      ensures FiberOk(a, a[id], hooks', queues')
    {
      assert FiberOk(a, a[id], hooks, queues);
    }
  }

  /**
   * Hook records are linked forwards: every `next` names a later id, so
   * following `next` from any record ends.
   */
  ghost predicate HooksOk(hooks: map<HookId, Hook>, nextHook: nat) {
    forall h :: h in hooks ==> h < nextHook && (hooks[h].next.Some? ==> h < hooks[h].next.value)
  }

  lemma SetKeepsOk(a: Arena, next: nat, hooks: map<HookId, Hook>, queues: map<QueueId, UpdateQueue>,
                   rank: map<FiberId, nat>, id: FiberId, f: Fiber)
    requires FibersOk(a, next, hooks, queues, rank) && id in a && FiberOk(a, f, hooks, queues)
    requires f.sibling.None? || f.sibling == a[id].sibling
    ensures FibersOk(a[id := f], next, hooks, queues, rank)
  {
    var b := a[id := f];
    assert b.Keys == a.Keys;
    forall x | x in b
      ensures x < next && FiberOk(b, b[x], hooks, queues)
    {
      assert FiberOk(a, b[x], hooks, queues);
    }
  }

  /** The chain from a fiber does not depend on which ranking proved it finite. */
  lemma ChainOfRankFree(a: Arena, rank1: map<FiberId, nat>, rank2: map<FiberId, nat>, first: Option<FiberId>)
    requires SiblingRanked(a, rank1) && SiblingRanked(a, rank2) && OptIn(first, a)
    ensures ChainOf(a, rank1, first) == ChainOf(a, rank2, first)
  {
    ChainUnique(a, first, ChainOf(a, rank1, first), ChainOf(a, rank2, first));
  }

  lemma ChainMembers(a: Arena, first: Option<FiberId>, chain: seq<FiberId>)
    requires IsChain(a, first, chain)
    ensures forall x :: x in chain ==> x in a
  {
    forall x | x in chain
      ensures x in a
    {
      var i :| 0 <= i < |chain| && chain[i] == x;
      assert LinkAt(a, chain, i);
    }
  }

  /** A chain survives any change that keeps the `sibling` links of its own fibers. */
  lemma {:induction false} ChainStable(a: Arena, rank: map<FiberId, nat>, b: Arena, rankB: map<FiberId, nat>,
                                       first: Option<FiberId>)
    requires SiblingRanked(a, rank) && SiblingRanked(b, rankB) && OptIn(first, a)
    requires forall x :: x in ChainOf(a, rank, first) ==> x in b && b[x].sibling == a[x].sibling
    ensures OptIn(first, b) && ChainOf(b, rankB, first) == ChainOf(a, rank, first)
    decreases if first.Some? then rank[first.value] + 1 else 0
  {
    if first.Some? {
      var c := ChainOf(a, rank, first);
      assert first.value in c;
      var next := a[first.value].sibling;
      assert ChainOf(a, rank, next) == c[1..];
      ChainStable(a, rank, b, rankB, next);
    }
  }

  /** Changing fibers without touching any `sibling` link keeps a ranking and every chain. */
  lemma SameSiblings(a: Arena, b: Arena, rank: map<FiberId, nat>, first: Option<FiberId>)
    requires SiblingRanked(a, rank) && OptIn(first, a)
    requires b.Keys == a.Keys && forall id :: id in a ==> b[id].sibling == a[id].sibling
    ensures SiblingRanked(b, rank) && ChainOf(b, rank, first) == ChainOf(a, rank, first)
    decreases if first.Some? then rank[first.value] + 1 else 0
  {
    if first.Some? {
      SameSiblings(a, b, rank, a[first.value].sibling);
    }
  }

  /**
   * The mutable state of the reconciler: the fiber, hook and queue arenas with
   * their fresh-id counters, the host-operation log, and the module-level
   * cursors of the work loop (`workInProgress`), the hooks (`currentlyRenderingFiber`,
   * `workInProgressHook`) and the dispatcher slot (`mountDispatcher`: whether
   * the mount dispatcher is installed).
   */
  class Renderer {
    var fibers: Arena
    var nextFiber: nat
    var hooks: map<HookId, Hook>
    var nextHook: nat
    var queues: map<QueueId, UpdateQueue>
    var nextQueue: nat
    var nextInstance: nat
    ghost var log: seq<HostOp>
    ghost var sibRank: map<FiberId, nat>

    var workInProgress: Option<FiberId>
    var currentlyRenderingFiber: Option<FiberId>
    var workInProgressHook: Option<HookId>
    var mountDispatcher: bool

    ghost predicate Valid()
      reads this
    {
      && FibersOk(fibers, nextFiber, hooks, queues, sibRank)
      && HooksOk(hooks, nextHook)
      && (forall h :: h in hooks ==> OptIn(hooks[h].updateQueue, queues))
      && (forall q :: q in queues ==> q < nextQueue)
      && OptIn(workInProgress, fibers)
      && OptIn(currentlyRenderingFiber, fibers) && OptIn(workInProgressHook, hooks)
    }

    /** Everything but the fiber arena, its counter, its ranking and the log. */
    function Rest(): (Rest: (map<HookId, Hook>, nat, map<QueueId, UpdateQueue>, nat, nat, Option<FiberId>, Option<FiberId>, Option<HookId>, bool))
      reads this
    {
      (hooks, nextHook, queues, nextQueue, nextInstance, workInProgress,
       currentlyRenderingFiber, workInProgressHook, mountDispatcher)
    }

    /** Everything but the fiber arena, its counter and ranking, the queue arena and the log. */
    function Others(): (Others: (map<HookId, Hook>, nat, nat, nat, Option<FiberId>, Option<FiberId>, Option<HookId>, bool))
      reads this
    {
      (hooks, nextHook, nextQueue, nextInstance, workInProgress,
       currentlyRenderingFiber, workInProgressHook, mountDispatcher)
    }

    /** Everything but the fiber arena, its counter and ranking, the instance counter and the log. */
    function Held(): (Held: (map<HookId, Hook>, nat, map<QueueId, UpdateQueue>, nat, Option<FiberId>, Option<FiberId>, Option<HookId>, bool))
      reads this
    {
      (hooks, nextHook, queues, nextQueue, workInProgress,
       currentlyRenderingFiber, workInProgressHook, mountDispatcher)
    }

    constructor ()
      ensures Valid() && fibers == map[] && hooks == map[] && queues == map[] && log == []
      ensures workInProgress.None?
      ensures currentlyRenderingFiber.None? && workInProgressHook.None? && !mountDispatcher
    {
      fibers, nextFiber := map[], 0;
      hooks, nextHook := map[], 0;
      queues, nextQueue := map[], 0;
      nextInstance := 0;
      log := [];
      sibRank := map[];
      workInProgress := None;
      currentlyRenderingFiber, workInProgressHook := None, None;
      mountDispatcher := false;
    }

    /** Stores a new fiber record under a fresh id. */
    method AddFiber(f: Fiber) returns (id: FiberId)
      requires Valid() && FiberOk(fibers, f, hooks, queues) && f.sibling.None?
      modifies this
      ensures Valid()
      ensures id == old(nextFiber) && nextFiber == old(nextFiber) + 1
      ensures id !in old(fibers) && fibers == old(fibers)[id := f]
      ensures Rest() == old(Rest()) && log == old(log)
    {
      id := nextFiber;
      AddKeepsOk(fibers, nextFiber, hooks, queues, sibRank, f);
      fibers := fibers[id := f];
      sibRank := sibRank[id := 0];
      nextFiber := nextFiber + 1;
    }

    /** Replaces the record of an existing fiber, keeping its links inside the arena. */
    method SetFiber(id: FiberId, f: Fiber)
      requires Valid() && id in fibers && FiberOk(fibers, f, hooks, queues)
      requires f.sibling.None? || f.sibling == fibers[id].sibling
      modifies this
      ensures Valid()
      ensures fibers == old(fibers)[id := f] && nextFiber == old(nextFiber) && sibRank == old(sibRank)
      ensures Rest() == old(Rest()) && log == old(log)
    {
      SetKeepsOk(fibers, nextFiber, hooks, queues, sibRank, id, f);
      fibers := fibers[id := f];
    }

    /** Appends one host operation to the log. */
    method Emit(op: HostOp)
      modifies this
      ensures log == old(log) + [op]
      ensures fibers == old(fibers) && nextFiber == old(nextFiber) && sibRank == old(sibRank)
      ensures Rest() == old(Rest())
    {
      log := log + [op];
    }

    /** Several host operations, in order. */
    method EmitAll(ops: seq<HostOp>)
      requires Valid()
      modifies this
      ensures Valid() && log == old(log) + ops
      ensures fibers == old(fibers) && nextFiber == old(nextFiber) && sibRank == old(sibRank)
      ensures Rest() == old(Rest())
    {
      log := log + ops;
    }

    /** Points the work loop's cursor at a fiber of the arena, or at nothing. */
    method SetWorkInProgress(w: Option<FiberId>)
      requires Valid() && OptIn(w, fibers)
      modifies this
      ensures Valid() && workInProgress == w
      ensures fibers == old(fibers) && nextFiber == old(nextFiber) && sibRank == old(sibRank) && log == old(log)
      ensures hooks == old(hooks) && queues == old(queues) && nextInstance == old(nextInstance)
      ensures nextHook == old(nextHook) && nextQueue == old(nextQueue)
      ensures currentlyRenderingFiber == old(currentlyRenderingFiber) && workInProgressHook == old(workInProgressHook)
      ensures mountDispatcher == old(mountDispatcher)
    {
      workInProgress := w;
    }

    /** A fresh host instance id. */
    method NewInstance() returns (inst: InstanceId)
      requires Valid()
      modifies this
      ensures Valid()
      ensures inst == old(nextInstance) && nextInstance == old(nextInstance) + 1
      ensures fibers == old(fibers) && nextFiber == old(nextFiber) && sibRank == old(sibRank)
      ensures log == old(log) && Held() == old(Held())
    {
      inst := nextInstance;
      nextInstance := nextInstance + 1;
    }
  }

  /** The root object: the container, the committed tree and the finished work-in-progress tree. */
  class FiberRootNode {
    const container: InstanceId
    var current: FiberId
    var finishedWork: Option<FiberId>

    constructor (r: Renderer, container: InstanceId, hostRootFiber: FiberId)
      requires r.Valid() && hostRootFiber in r.fibers
      modifies r
      ensures this.container == container && current == hostRootFiber && finishedWork.None?
      ensures r.Valid()
      ensures r.fibers == old(r.fibers)[hostRootFiber := old(r.fibers)[hostRootFiber].(stateNode := RootNode(this))]
      ensures r.nextFiber == old(r.nextFiber) && r.Rest() == old(r.Rest()) && r.log == old(r.log)
    {
      this.container := container;
      current := hostRootFiber;
      finishedWork := None;
      new;
      r.SetFiber(hostRootFiber, r.fibers[hostRootFiber].(stateNode := RootNode(this)));
    }
  }

  /** `new FiberNode(tag, pendingProps, key)`, stored under a fresh id. */
  method CreateFiber(r: Renderer, tag: WorkTag, pendingProps: Value, key: Value) returns (id: FiberId)
    requires r.Valid()
    modifies r
    ensures r.Valid()
    ensures id == old(r.nextFiber) && r.nextFiber == id + 1
    ensures id !in old(r.fibers) && r.fibers == old(r.fibers)[id := NewFiber(tag, pendingProps, key)]
    ensures r.Rest() == old(r.Rest()) && r.log == old(r.log)
  {
    id := r.AddFiber(NewFiber(tag, pendingProps, key));
  }

  /**
   * `createWorkInProgress` on arena values: recycles `alternate` when there
   * is one (replacing `pendingProps` and clearing both flag sets), otherwise
   * builds a new fiber under the id `freshId` linked to `current` both ways;
   * then copies the rendered fields from `current`. With `resetDeletions`
   * the recycled fiber's `deletions` list is also set back to null.
   */
  function Twin(a: Arena, freshId: FiberId, current: FiberId, pendingProps: Value, resetDeletions: bool): (res: (Arena, FiberId))
    requires current in a && freshId !in a && OptIn(a[current].alternate, a)
    ensures res.1 == if a[current].alternate.Some? then a[current].alternate.value else freshId
    ensures res.1 in res.0 && res.0.Keys == a.Keys + {res.1}
  {
    var c := a[current];
    var (b, w) :=
      if c.alternate.None? then
        var created := NewFiber(c.tag, pendingProps, c.key).(stateNode := c.stateNode, alternate := Some(current));
        (a[freshId := created][current := c.(alternate := Some(freshId))], freshId)
      else
        var id := c.alternate.value;
        var deletions := if resetDeletions then None else a[id].deletions;
        (a[id := a[id].(pendingProps := pendingProps, flags := NoFlags, subtreeFlags := NoFlags, deletions := deletions)], id);
    (b[w := b[w].(fiberType := c.fiberType, updateQueue := c.updateQueue, child := c.child,
                  memoizedProps := c.memoizedProps, memoizedState := c.memoizedState)], w)
  }

  /** `createWorkInProgress` as written: a recycled fiber keeps its `deletions` list. */
  function WorkInProgressAsWritten(a: Arena, freshId: FiberId, current: FiberId, pendingProps: Value): (res: (Arena, FiberId))
    requires current in a && freshId !in a && OptIn(a[current].alternate, a)
    ensures res.1 == if a[current].alternate.Some? then a[current].alternate.value else freshId
    ensures res.1 in res.0 && res.0.Keys == a.Keys + {res.1}
    ensures a[current].alternate.Some? ==> res.0[res.1].deletions == a[res.1].deletions
  {
    Twin(a, freshId, current, pendingProps, false)
  }

  /**
   * `createWorkInProgress` with the recycled fiber's `deletions` reset to
   * null, so a deletion list never outlives the render that recorded it.
   */
  function WorkInProgress(a: Arena, freshId: FiberId, current: FiberId, pendingProps: Value): (res: (Arena, FiberId))
    requires current in a && freshId !in a && OptIn(a[current].alternate, a)
    ensures res.1 == if a[current].alternate.Some? then a[current].alternate.value else freshId
    ensures res.1 in res.0 && res.0.Keys == a.Keys + {res.1}
  {
    Twin(a, freshId, current, pendingProps, true)
  }

  /** What `createWorkInProgress` promises about the twin it returns and the rest of the arena. */
  lemma WorkInProgressFields(a: Arena, freshId: FiberId, current: FiberId, pendingProps: Value)
    requires current in a && freshId !in a && OptIn(a[current].alternate, a)
    // mount: a new fiber of the same kind, linked to `current` in both directions
    ensures var res := WorkInProgress(a, freshId, current, pendingProps);
      a[current].alternate.None? ==>
      && res.1 == freshId
      && res.0[freshId].tag == a[current].tag && res.0[freshId].key == a[current].key
      && res.0[freshId].stateNode == a[current].stateNode
      && res.0[freshId].alternate == Some(current) && res.0[current].alternate == Some(freshId)
      && res.0[freshId].ret.None? && res.0[freshId].sibling.None? && res.0[freshId].index == 0
      && res.0[current] == a[current].(alternate := Some(freshId))
    // update: the same alternate object, with only its work fields reset
    ensures var res := WorkInProgress(a, freshId, current, pendingProps);
      a[current].alternate.Some? ==>
      var w := a[current].alternate.value;
      && res.1 == w && res.0.Keys == a.Keys
      && res.0[w].tag == a[w].tag && res.0[w].key == a[w].key && res.0[w].stateNode == a[w].stateNode
      && res.0[w].ret == a[w].ret && res.0[w].sibling == a[w].sibling && res.0[w].index == a[w].index
      && res.0[w].ref == a[w].ref && res.0[w].alternate == a[w].alternate
    // both: fresh work fields, rendered fields copied from `current`
    ensures var res := WorkInProgress(a, freshId, current, pendingProps);
      var w := res.0[res.1];
      && w.pendingProps == pendingProps && w.flags == NoFlags && w.subtreeFlags == NoFlags && w.deletions.None?
      && w.fiberType == a[current].fiberType && w.updateQueue == a[current].updateQueue
      && w.child == a[current].child && w.memoizedProps == a[current].memoizedProps
      && w.memoizedState == a[current].memoizedState
    // nothing else changes
    ensures var res := WorkInProgress(a, freshId, current, pendingProps);
      forall id :: id in a && id != current && id != res.1 ==> res.0[id] == a[id]
  {
  }

  /**
   * Asking twice for the work-in-progress twin of the same fiber gives the
   * same fiber and allocates nothing: there are never more than two buffers.
   */
  lemma WorkInProgressTwice(a: Arena, freshId1: FiberId, freshId2: FiberId, current: FiberId, p1: Value, p2: Value)
    requires current in a && freshId1 !in a && OptIn(a[current].alternate, a)
    requires freshId2 !in WorkInProgress(a, freshId1, current, p1).0
    ensures var (b, w) := WorkInProgress(a, freshId1, current, p1);
      && OptIn(b[current].alternate, b)
      && WorkInProgress(b, freshId2, current, p2).1 == w
      && WorkInProgress(b, freshId2, current, p2).0.Keys == b.Keys
  {
  }

  /** Mutual `alternate` links stay mutual, and the pair is the current fiber and the result. */
  lemma WorkInProgressKeepsTwins(a: Arena, freshId: FiberId, current: FiberId, p: Value)
    requires current in a && freshId !in a && OptIn(a[current].alternate, a)
    requires a[current].alternate.Some? ==> a[a[current].alternate.value].alternate == Some(current)
    ensures var (b, w) := WorkInProgress(a, freshId, current, p);
      b[current].alternate == Some(w) && b[w].alternate == Some(current)
  {
  }

  /** `createWorkInProgress`, recycling or allocating the twin of `current`. */
  method CreateWorkInProgress(r: Renderer, current: FiberId, pendingProps: Value) returns (wip: FiberId)
    requires r.Valid() && current in r.fibers
    modifies r
    ensures r.Valid()
    ensures (r.fibers, wip) == WorkInProgress(old(r.fibers), old(r.nextFiber), current, pendingProps)
    ensures r.Rest() == old(r.Rest()) && r.log == old(r.log)
  {
    var c := r.fibers[current];
    if c.alternate.None? {
      wip := r.AddFiber(NewFiber(c.tag, pendingProps, c.key).(stateNode := c.stateNode, alternate := Some(current)));
      r.SetFiber(current, c.(alternate := Some(wip)));
    } else {
      wip := c.alternate.value;
      r.SetFiber(wip, r.fibers[wip].(pendingProps := pendingProps, flags := NoFlags, subtreeFlags := NoFlags,
                                      deletions := None));
    }
    r.SetFiber(wip, r.fibers[wip].(fiberType := c.fiberType, updateQueue := c.updateQueue, child := c.child,
                                    memoizedProps := c.memoizedProps, memoizedState := c.memoizedState));
  }

  /** The fiber `createFiberFromElement` builds: a string type is a host component, anything else a function component. */
  function FiberFromElement(element: Value): (f: Fiber)
    ensures f.tag == (if Get(element, "type").Str? then HostComponent else FunctionComponent)
    ensures f.pendingProps == Get(element, "props") && f.key == Get(element, "key")
    ensures f.fiberType == Get(element, "type")
    ensures f.flags == NoFlags && f.subtreeFlags == NoFlags && f.deletions.None?
    ensures f.ret.None? && f.sibling.None? && f.child.None? && f.alternate.None? && f.index == 0
    ensures f.stateNode.NoInstance? && f.memoizedProps == Null && f.memoizedState == Plain(Null) && f.updateQueue.None?
  {
    var elementType := Get(element, "type");
    var tag := if elementType.Str? then HostComponent else FunctionComponent;
    NewFiber(tag, Get(element, "props"), Get(element, "key")).(fiberType := elementType)
  }

  /** `createFiberFromElement`, stored under a fresh id. */
  method CreateFiberFromElement(r: Renderer, element: Value) returns (id: FiberId)
    requires r.Valid()
    modifies r
    ensures r.Valid()
    ensures id == old(r.nextFiber) && r.nextFiber == id + 1
    ensures id !in old(r.fibers) && r.fibers == old(r.fibers)[id := FiberFromElement(element)]
    ensures r.Rest() == old(r.Rest()) && r.log == old(r.log)
  {
    id := r.AddFiber(FiberFromElement(element));
  }
}
