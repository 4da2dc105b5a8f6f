/**
 * Function components and their state hooks: the per-render list of hook
 * records, built through two module-level cursors (the fiber being rendered
 * and the last hook record), the mount-time `useState`, and the enqueueing
 * half of a state setter.
 */
module FiberHooks {
  import opened JsValues
  import opened Fibers

  /** The hook records met by following `next` from `from` until null (or a missing record). */
  function HookChain(hooks: map<HookId, Hook>, nextHook: nat, from: Option<HookId>): (chain: seq<HookId>)
    requires HooksOk(hooks, nextHook)
    ensures (from.Some? && from.value in hooks) <==> chain != []
    ensures chain != [] ==> chain[0] == from.value
    ensures forall h :: h in chain ==> h in hooks
    decreases if from.Some? && from.value in hooks then nextHook - from.value else 0
  {
    if from.None? || from.value !in hooks then []
    else [from.value] + HookChain(hooks, nextHook, hooks[from.value].next)
  }

  /** The ids `b`, `b + 1`, ..., `b + n - 1`. */
  function Ids(b: nat, n: nat): (s: seq<nat>)
    ensures |s| == n && forall k :: 0 <= k < n ==> s[k] == b + k
  {
    seq(n, k => b + k)
  }

  /** Following `next` from a present record meets it, then the chain from its `next`. */
  lemma ChainCons(hooks: map<HookId, Hook>, nextHook: nat, h: HookId)
    requires HooksOk(hooks, nextHook) && h in hooks
    ensures HookChain(hooks, nextHook, Some(h)) == [h] + HookChain(hooks, nextHook, hooks[h].next)
  {
  }

  lemma IdsCons(b: nat, n: nat)
    requires n > 0
    ensures Ids(b, n) == [b] + Ids(b + 1, n - 1)
  {
  }

  /**
   * Records `b` to `b + n - 1` linked one after the other, the last one
   * ending the list, form the chain `Ids(b + j, n - j)` from any of them.
   */
  lemma {:induction false} RunChain(hooks: map<HookId, Hook>, nextHook: nat, b: nat, n: nat, j: nat)
    requires HooksOk(hooks, nextHook) && j < n
    requires forall h :: b <= h < b + n ==> h in hooks && hooks[h].next == (if h + 1 < b + n then Some(h + 1) else None)
    ensures HookChain(hooks, nextHook, Some(b + j)) == Ids(b + j, n - j)
    decreases n - j
  {
    var h := b + j;
    ChainCons(hooks, nextHook, h);
    IdsCons(h, n - j);
    if j + 1 < n {
      RunChain(hooks, nextHook, b, n, j + 1);
    }
  }

  /** The hook arena after a record `rec` is stored under `h` and linked after the cursor, if any. */
  function LinkedHooks(hooks: map<HookId, Hook>, cursor: Option<HookId>, h: HookId, rec: Hook): map<HookId, Hook>
    requires OptIn(cursor, hooks)
  {
    (if cursor.Some? then hooks[cursor.value := hooks[cursor.value].(next := Some(h))] else hooks)[h := rec]
  }

  /** The fields the hook operations build: fibers, hook and queue arenas with their counters, and the cursor. */
  datatype HookState = HookState(fibers: Arena, hooks: map<HookId, Hook>, nextHook: nat,
                                 queues: map<QueueId, UpdateQueue>, nextQueue: nat, cursor: Option<HookId>)

  ghost function HookStateOf(r: Renderer): HookState
    reads r
  {
    HookState(r.fibers, r.hooks, r.nextHook, r.queues, r.nextQueue, r.workInProgressHook)
  }

  /** The fields a component's hook calls leave alone. */
  ghost function Kept(r: Renderer): (nat, map<FiberId, nat>, seq<HostOp>, nat, Option<FiberId>, Option<FiberId>, bool)
    reads r
  {
    (r.nextFiber, r.sibRank, r.log, r.nextInstance, r.workInProgress,
     r.currentlyRenderingFiber, r.mountDispatcher)
  }

  /**
   * The state after one `mountState` while `crf` is being rendered: record
   * `nextHook` is linked after the cursor (with no cursor it becomes `crf`'s
   * `memoizedState`) and becomes the cursor; it owns the new queue
   * `nextQueue`, whose setter is bound to `crf` and that queue.
   */
  function StepState(s: HookState, crf: Option<FiberId>): (t: HookState)
    requires OptIn(s.cursor, s.hooks)
    requires s.cursor.None? ==> crf.Some? && crf.value in s.fibers
    ensures t.fibers.Keys == s.fibers.Keys && t.cursor.Some? && t.cursor.value in t.hooks
  {
    var h, q := s.nextHook, s.nextQueue;
    HookState(
      if s.cursor.Some? then s.fibers else s.fibers[crf.value := s.fibers[crf.value].(memoizedState := HookList(h))],
      LinkedHooks(s.hooks, s.cursor, h, Hook(Null, Some(q), None)),
      h + 1,
      s.queues[q := UpdateQueue(None, Some(Dispatch(crf, q)))],
      q + 1,
      Some(h))
  }

  /** The ids from `b` below `b + n`, as a set. */
  function Range(b: nat, n: nat): (s: set<nat>)
    ensures forall x :: x in s <==> b <= x < b + n
  {
    if n == 0 then {} else Range(b, n - 1) + {b + n - 1}
  }

  /** Record `h` of a run of `n` new records from `h0` whose queues start at `q0`. */
  function RunHook(h0: HookId, q0: QueueId, n: nat, h: HookId): Hook
    requires h0 <= h
  {
    Hook(Null, Some(q0 + (h - h0)), if h + 1 < h0 + n then Some(h + 1) else None)
  }

  /**
   * The hook arena after the first `n` `useState` calls of a component,
   * starting from `hooks0` with fresh ids from `h0` and the cursor at
   * `cursor0`: call `k` owns record `h0 + k` with queue `q0 + k`, the new
   * records are linked in call order after the cursor's record, and no
   * other record changes.
   */
  ghost predicate HooksMounted(hooks0: map<HookId, Hook>, cursor0: Option<HookId>, h0: HookId, q0: QueueId, n: nat,
                               hooks: map<HookId, Hook>)
    requires OptIn(cursor0, hooks0)
  {
    && hooks.Keys == hooks0.Keys + Range(h0, n)
    && (forall h :: h0 <= h < h0 + n ==> hooks[h] == RunHook(h0, q0, n, h))
    && (forall h :: h in hooks0 && Some(h) != cursor0 ==> hooks[h] == hooks0[h])
    && (cursor0.Some? ==>
          hooks[cursor0.value] == if n == 0 then hooks0[cursor0.value] else hooks0[cursor0.value].(next := Some(h0)))
  }

  /** The queue arena after `n` calls: queue `q0 + k` is new, empty, with its setter bound to `fiber`. */
  ghost predicate QueuesMounted(queues0: map<QueueId, UpdateQueue>, q0: QueueId, fiber: FiberId, n: nat,
                                queues: map<QueueId, UpdateQueue>)
  {
    && queues.Keys == queues0.Keys + Range(q0, n)
    && (forall q :: q0 <= q < q0 + n ==> queues[q] == UpdateQueue(None, Some(Dispatch(Some(fiber), q))))
    && (forall q :: q in queues0 ==> queues[q] == queues0[q])
  }

  /** After the `n`-th call, the run of new records is one longer and still linked in order. */
  lemma RunStep(h0: HookId, q0: QueueId, n: nat, hooks: map<HookId, Hook>, cursor: Option<HookId>,
                hooks': map<HookId, Hook>)
    requires n > 0 && forall h :: h0 <= h < h0 + (n - 1) ==> h in hooks && hooks[h] == RunHook(h0, q0, n - 1, h)
    requires if n > 1 then cursor == Some(h0 + (n - 2)) else cursor.Some? ==> cursor.value < h0
    requires OptIn(cursor, hooks)
    requires hooks' == LinkedHooks(hooks, cursor, h0 + (n - 1), Hook(Null, Some(q0 + (n - 1)), None))
    ensures forall h :: h0 <= h < h0 + n ==> h in hooks' && hooks'[h] == RunHook(h0, q0, n, h)
  {
    forall h | h0 <= h < h0 + n
      ensures h in hooks' && hooks'[h] == RunHook(h0, q0, n, h)
    {
      if h < h0 + (n - 1) {
        assert hooks[h] == RunHook(h0, q0, n - 1, h);
      }
    }
  }

  /** The `n`-th call appends one record at the cursor. */
  lemma HooksStep(hooks0: map<HookId, Hook>, cursor0: Option<HookId>, h0: HookId, q0: QueueId, n: nat,
                  hooks: map<HookId, Hook>, cursor: Option<HookId>, hooks': map<HookId, Hook>)
    requires OptIn(cursor0, hooks0) && (forall h :: h in hooks0 ==> h < h0) && n > 0
    requires HooksMounted(hooks0, cursor0, h0, q0, n - 1, hooks)
    requires cursor == CursorAfter(cursor0, h0, n - 1) && OptIn(cursor, hooks)
    requires hooks' == LinkedHooks(hooks, cursor, h0 + (n - 1), Hook(Null, Some(q0 + (n - 1)), None))
    ensures HooksMounted(hooks0, cursor0, h0, q0, n, hooks')
  {
    RunStep(h0, q0, n, hooks, cursor, hooks');
    assert hooks'.Keys == hooks0.Keys + Range(h0, n);
  }

  /** One more call adds one bound queue. */
  lemma QueuesStep(queues0: map<QueueId, UpdateQueue>, q0: QueueId, fiber: FiberId, n: nat,
                   queues: map<QueueId, UpdateQueue>)
    requires forall q :: q in queues0 ==> q < q0
    requires QueuesMounted(queues0, q0, fiber, n, queues)
    ensures QueuesMounted(queues0, q0, fiber, n + 1, queues[q0 + n := UpdateQueue(None, Some(Dispatch(Some(fiber), q0 + n)))])
  {
  }

  /** No calls leave the hook arena as it was. */
  lemma NoneMounted(hooks0: map<HookId, Hook>, cursor0: Option<HookId>, h0: HookId, q0: QueueId)
    requires OptIn(cursor0, hooks0)
    ensures HooksMounted(hooks0, cursor0, h0, q0, 0, hooks0)
  {
    assert hooks0.Keys == hooks0.Keys + Range(h0, 0);
  }

  /** The cursor is a stored record and every stored id is below its counter. */
  ghost predicate Fresh(s: HookState)
  {
    && OptIn(s.cursor, s.hooks)
    && (forall h :: h in s.hooks ==> h < s.nextHook)
    && (forall q :: q in s.queues ==> q < s.nextQueue)
  }

  /** The cursor after `n` calls that started from `cursor0` with fresh ids from `h0`. */
  function CursorAfter(cursor0: Option<HookId>, h0: HookId, n: nat): Option<HookId>
  {
    if n == 0 then cursor0 else Some(h0 + n - 1)
  }

  /** The hook arena after `n` calls: call `k` links record `h0 + k`, owning queue `q0 + k`, after the cursor. */
  function MountedHooks(hooks0: map<HookId, Hook>, cursor0: Option<HookId>, h0: HookId, q0: QueueId, n: nat): (hooks: map<HookId, Hook>)
    requires OptIn(cursor0, hooks0)
    ensures OptIn(CursorAfter(cursor0, h0, n), hooks)
  {
    if n == 0 then hooks0
    else
      LinkedHooks(MountedHooks(hooks0, cursor0, h0, q0, n - 1), CursorAfter(cursor0, h0, n - 1), h0 + (n - 1),
                  Hook(Null, Some(q0 + (n - 1)), None))
  }

  /** The queue arena after `n` calls: call `k` adds queue `q0 + k` with its setter bound to `fiber`. */
  function MountedQueues(queues0: map<QueueId, UpdateQueue>, q0: QueueId, fiber: FiberId, n: nat): map<QueueId, UpdateQueue>
  {
    if n == 0 then queues0
    else var k := n - 1;
      MountedQueues(queues0, q0, fiber, k)[q0 + k := UpdateQueue(None, Some(Dispatch(Some(fiber), q0 + k)))]
  }

  /** One more call, unfolded. */
  lemma MountedHooksCons(hooks0: map<HookId, Hook>, cursor0: Option<HookId>, h0: HookId, q0: QueueId, n: nat)
    requires OptIn(cursor0, hooks0) && n > 0
    ensures MountedHooks(hooks0, cursor0, h0, q0, n)
         == LinkedHooks(MountedHooks(hooks0, cursor0, h0, q0, n - 1), CursorAfter(cursor0, h0, n - 1), h0 + (n - 1),
                        Hook(Null, Some(q0 + (n - 1)), None))
  {
  }

  /** The state after `n` `useState` calls while `fiber` is being rendered. */
  function MountedState(s: HookState, fiber: FiberId, n: nat): (t: HookState)
    requires Fresh(s) && fiber in s.fibers
    ensures OptIn(t.cursor, t.hooks) && fiber in t.fibers
  {
    HookState(
      if s.cursor.None? && n > 0 then s.fibers[fiber := s.fibers[fiber].(memoizedState := HookList(s.nextHook))] else s.fibers,
      MountedHooks(s.hooks, s.cursor, s.nextHook, s.nextQueue, n),
      s.nextHook + n,
      MountedQueues(s.queues, s.nextQueue, fiber, n),
      s.nextQueue + n,
      CursorAfter(s.cursor, s.nextHook, n))
  }

  /** No calls leave the state as it was. */
  lemma NoneMountedState(s: HookState, fiber: FiberId)
    requires Fresh(s) && fiber in s.fibers
    ensures MountedState(s, fiber, 0) == s
  {
  }

  /** One more `useState` call takes the state after `n` calls to the state after `n + 1`. */
  lemma StepMounted(s: HookState, fiber: FiberId, n: nat)
    requires Fresh(s) && fiber in s.fibers
    ensures StepState(MountedState(s, fiber, n), Some(fiber)) == MountedState(s, fiber, n + 1)
  {
    var t := MountedState(s, fiber, n);
    var u := StepState(t, Some(fiber));
    assert u.hooks == MountedState(s, fiber, n + 1).hooks;
    assert u.queues == MountedState(s, fiber, n + 1).queues;
  }

  /** A new hook record `{memoizedState: null, updateQueue: null, next: null}`, linked after the cursor. */
  method AppendHook(r: Renderer) returns (h: HookId)
    requires r.Valid()
    modifies r
    ensures r.Valid()
    ensures h == old(r.nextHook) && h !in old(r.hooks)
    ensures HookStateOf(r) == old(HookStateOf(r)).(
              hooks := LinkedHooks(old(r.hooks), old(r.workInProgressHook), h, Hook(Null, None, None)),
              nextHook := h + 1,
              cursor := Some(h))
    ensures Kept(r) == old(Kept(r))
  {
    h := r.nextHook;
    var hooks := r.hooks;
    if r.workInProgressHook.Some? {
      var c := r.workInProgressHook.value;
      hooks := hooks[c := hooks[c].(next := Some(h))];
    }
    hooks := hooks[h := Hook(Null, None, None)];
    GrowKeepsOk(r.fibers, r.nextFiber, r.hooks, r.queues, r.sibRank, hooks, r.queues);
    r.hooks := hooks;
    r.nextHook := h + 1;
    r.workInProgressHook := Some(h);
  }

  /**
   * `mountWorkInProgressHook`: a new record becomes the last of the list.
   * With no cursor it is the first hook and is stored as the rendering
   * fiber's `memoizedState`; with no cursor and no rendering fiber the call
   * throws (`None`) and nothing changes. The cursor is never cleared
   * between components, so a later component's first hook is linked after
   * the previous component's last one.
   */
  method MountWorkInProgressHook(r: Renderer) returns (hook: Option<HookId>)
    requires r.Valid()
    modifies r
    ensures r.Valid()
    ensures hook.None? <==> old(r.workInProgressHook).None? && old(r.currentlyRenderingFiber).None?
    ensures hook.None? ==> unchanged(r)
    ensures hook.Some? ==>
      var h := old(r.nextHook);
      && hook == Some(h)
      && HookStateOf(r) == old(HookStateOf(r)).(
           fibers := if old(r.workInProgressHook).Some? then old(r.fibers)
                     else var f := old(r.currentlyRenderingFiber).value;
                       old(r.fibers)[f := old(r.fibers)[f].(memoizedState := HookList(h))],
           hooks := LinkedHooks(old(r.hooks), old(r.workInProgressHook), h, Hook(Null, None, None)),
           nextHook := h + 1,
           cursor := Some(h))
    ensures Kept(r) == old(Kept(r))
  {
    if r.workInProgressHook.None? {
      if r.currentlyRenderingFiber.None? {
        return None;
      }
      var h := AppendHook(r);
      var f := r.currentlyRenderingFiber.value;
      r.SetFiber(f, r.fibers[f].(memoizedState := HookList(h)));
    } else {
      var h := AppendHook(r);
    }
    hook := r.workInProgressHook;
  }

  /** `createUpdateQueue`: an empty queue under a fresh id. */
  method NewQueue(r: Renderer) returns (q: QueueId)
    requires r.Valid()
    modifies r
    ensures r.Valid()
    ensures q == old(r.nextQueue) && q !in old(r.queues)
    ensures HookStateOf(r) == old(HookStateOf(r)).(queues := old(r.queues)[q := UpdateQueue(None, None)], nextQueue := q + 1)
    ensures Kept(r) == old(Kept(r))
  {
    q := r.nextQueue;
    GrowKeepsOk(r.fibers, r.nextFiber, r.hooks, r.queues, r.sibRank, r.hooks, r.queues[q := UpdateQueue(None, None)]);
    r.queues := r.queues[q := UpdateQueue(None, None)];
    r.nextQueue := q + 1;
  }

  /** `hook.updateQueue = queue` and `queue.dispatch = dispatch`. */
  method BindQueue(r: Renderer, h: HookId, q: QueueId, dispatch: Dispatch)
    requires r.Valid() && h in r.hooks && q in r.queues
    modifies r
    ensures r.Valid()
    ensures HookStateOf(r) == old(HookStateOf(r)).(
              hooks := old(r.hooks)[h := old(r.hooks)[h].(updateQueue := Some(q))],
              queues := old(r.queues)[q := old(r.queues)[q].(dispatch := Some(dispatch))])
    ensures Kept(r) == old(Kept(r))
  {
    var hooks := r.hooks[h := r.hooks[h].(updateQueue := Some(q))];
    var queues := r.queues[q := r.queues[q].(dispatch := Some(dispatch))];
    GrowKeepsOk(r.fibers, r.nextFiber, r.hooks, r.queues, r.sibRank, hooks, queues);
    r.hooks := hooks;
    r.queues := queues;
  }

  /** The value `useState(initialState)` starts from: `initialState()` for a function, the value itself otherwise. */
  function InitialState(env: Env, initialState: Value): (s: Value)
    ensures !initialState.Fn? ==> s == initialState
    ensures initialState.Fn? ==> s == env.callInitializer(initialState.id)
  {
    if initialState.Fn? then env.callInitializer(initialState.id) else initialState
  }

  /** Allocating the record, then the queue, then binding the two is one `StepState`. */
  lemma MountSteps(s0: HookState, crf: Option<FiberId>, s1: HookState, s2: HookState, s3: HookState)
    requires OptIn(s0.cursor, s0.hooks) && s0.nextHook !in s0.hooks && s0.nextQueue !in s0.queues
    requires s0.cursor.None? ==> crf.Some? && crf.value in s0.fibers
    requires var h := s0.nextHook;
      s1 == s0.(fibers := if s0.cursor.Some? then s0.fibers
                          else s0.fibers[crf.value := s0.fibers[crf.value].(memoizedState := HookList(h))],
                hooks := LinkedHooks(s0.hooks, s0.cursor, h, Hook(Null, None, None)),
                nextHook := h + 1,
                cursor := Some(h))
    requires s2 == s1.(queues := s1.queues[s0.nextQueue := UpdateQueue(None, None)], nextQueue := s0.nextQueue + 1)
    requires var h, q := s0.nextHook, s0.nextQueue;
      s3 == s2.(hooks := s2.hooks[h := s2.hooks[h].(updateQueue := Some(q))],
                queues := s2.queues[q := s2.queues[q].(dispatch := Some(Dispatch(crf, q)))])
    ensures s3 == StepState(s0, crf)
  {
    var h, q := s0.nextHook, s0.nextQueue;
    assert s3.hooks == LinkedHooks(s0.hooks, s0.cursor, h, Hook(Null, Some(q), None));
  }

  /**
   * `mountState`: a new hook record with a new empty queue whose `dispatch`
   * is the setter bound to the rendering fiber and that queue; returns the
   * initial state and the setter. The computed state is not stored in the
   * hook record. Throws (`None`) exactly when `mountWorkInProgressHook` does.
   */
  method MountState(r: Renderer, env: Env, initialState: Value) returns (res: Option<(Value, Dispatch)>)
    requires r.Valid()
    modifies r
    ensures r.Valid()
    ensures res.None? <==> old(r.workInProgressHook).None? && old(r.currentlyRenderingFiber).None?
    ensures res.None? ==> unchanged(r)
    ensures res.Some? ==>
      && res.value == (InitialState(env, initialState), Dispatch(old(r.currentlyRenderingFiber), old(r.nextQueue)))
      && HookStateOf(r) == StepState(old(HookStateOf(r)), old(r.currentlyRenderingFiber))
    ensures Kept(r) == old(Kept(r))
  {
    ghost var s0 := HookStateOf(r);
    var hook := MountWorkInProgressHook(r);
    if hook.None? {
      return None;
    }
    var h := hook.value;
    ghost var s1 := HookStateOf(r);
    var memoizedState := InitialState(env, initialState);
    var q := NewQueue(r);
    ghost var s2 := HookStateOf(r);
    var dispatch := Dispatch(r.currentlyRenderingFiber, q);
    BindQueue(r, h, q, dispatch);
    MountSteps(s0, r.currentlyRenderingFiber, s1, s2, HookStateOf(r));
    return Some((memoizedState, dispatch));
  }

  /**
   * `useState` through the shared dispatcher: throws (`None`) when no
   * dispatcher was ever installed, and is `mountState` otherwise (the only
   * dispatcher this source has).
   */
  method UseState(r: Renderer, env: Env, initialState: Value) returns (res: Option<(Value, Dispatch)>)
    requires r.Valid()
    modifies r
    ensures r.Valid()
    ensures !old(r.mountDispatcher) ==> res.None? && unchanged(r)
    ensures old(r.mountDispatcher) ==>
      (res.None? <==> old(r.workInProgressHook).None? && old(r.currentlyRenderingFiber).None?)
    ensures res.None? ==> unchanged(r)
    ensures res.Some? ==>
      && res.value == (InitialState(env, initialState), Dispatch(old(r.currentlyRenderingFiber), old(r.nextQueue)))
      && HookStateOf(r) == StepState(old(HookStateOf(r)), old(r.currentlyRenderingFiber))
    ensures Kept(r) == old(Kept(r))
  {
    if !r.mountDispatcher {
      return None;
    }
    res := MountState(r, env, initialState);
  }

  /**
   * `dispatchSetState` up to the scheduling call: exactly one update, made
   * from the action, is handed to `enqueueUpdate` for the bound queue, and
   * nothing else changes.
   */
  method DispatchSetState(r: Renderer, env: Env, dispatch: Dispatch, action: Value)
    requires r.Valid() && dispatch.queue in r.queues
    modifies r
    ensures r.Valid()
    ensures r.queues == old(r.queues)[dispatch.queue := env.enqueueUpdate(old(r.queues)[dispatch.queue], UpdateOf(action))]
    ensures HookStateOf(r) == old(HookStateOf(r)).(queues := r.queues)
    ensures Kept(r) == old(Kept(r))
  {
    var update := UpdateOf(action);
    var q := dispatch.queue;
    GrowKeepsOk(r.fibers, r.nextFiber, r.hooks, r.queues, r.sibRank, r.hooks,
                r.queues[q := env.enqueueUpdate(r.queues[q], update)]);
    r.queues := r.queues[q := env.enqueueUpdate(r.queues[q], update)];
  }

  /** `n` calls grow the hook arena as `HooksMounted` says. */
  lemma {:induction false} MountedHooksShape(hooks0: map<HookId, Hook>, cursor0: Option<HookId>, h0: HookId, q0: QueueId, n: nat)
    requires OptIn(cursor0, hooks0) && forall h :: h in hooks0 ==> h < h0
    ensures HooksMounted(hooks0, cursor0, h0, q0, n, MountedHooks(hooks0, cursor0, h0, q0, n))
  {
    if n == 0 {
      NoneMounted(hooks0, cursor0, h0, q0);
    } else {
      MountedHooksShape(hooks0, cursor0, h0, q0, n - 1);
      MountedHooksCons(hooks0, cursor0, h0, q0, n);
      HooksStep(hooks0, cursor0, h0, q0, n, MountedHooks(hooks0, cursor0, h0, q0, n - 1), CursorAfter(cursor0, h0, n - 1),
                MountedHooks(hooks0, cursor0, h0, q0, n));
    }
  }

  /** `n` calls grow the queue arena as `QueuesMounted` says. */
  lemma {:induction false} MountedQueuesShape(queues0: map<QueueId, UpdateQueue>, q0: QueueId, fiber: FiberId, n: nat)
    requires forall q :: q in queues0 ==> q < q0
    ensures QueuesMounted(queues0, q0, fiber, n, MountedQueues(queues0, q0, fiber, n))
  {
    if n > 0 {
      MountedQueuesShape(queues0, q0, fiber, n - 1);
      QueuesStep(queues0, q0, fiber, n - 1, MountedQueues(queues0, q0, fiber, n - 1));
    }
  }

  /** The new records link each to the next, the last one ending the list. */
  lemma RunLinked(hooks0: map<HookId, Hook>, cursor0: Option<HookId>, h0: HookId, q0: QueueId, n: nat,
                  hooks: map<HookId, Hook>)
    requires OptIn(cursor0, hooks0) && HooksMounted(hooks0, cursor0, h0, q0, n, hooks)
    ensures forall h :: h0 <= h < h0 + n ==> h in hooks && hooks[h].next == (if h + 1 < h0 + n then Some(h + 1) else None)
  {
    forall h | h0 <= h < h0 + n
      ensures h in hooks && hooks[h].next == (if h + 1 < h0 + n then Some(h + 1) else None)
    {
      assert hooks[h] == RunHook(h0, q0, n, h);
    }
  }

  /** With no cursor to start from, the fiber's hook list holds one record per call, in call order. */
  lemma MountedInOrder(hooks0: map<HookId, Hook>, h0: HookId, q0: QueueId, n: nat, hooks: map<HookId, Hook>,
                       nextHook: nat)
    requires n > 0 && HooksOk(hooks, nextHook)
    requires HooksMounted(hooks0, None, h0, q0, n, hooks)
    ensures HookChain(hooks, nextHook, Some(h0)) == Ids(h0, n)
  {
    RunLinked(hooks0, None, h0, q0, n, hooks);
    RunChain(hooks, nextHook, h0, n, 0);
  }

  /** The same, for the state `n` calls build: following the fiber's list meets the new records in call order. */
  lemma MountedStateInOrder(s: HookState, fiber: FiberId, n: nat, hooks: map<HookId, Hook>, nextHook: nat)
    requires s.cursor.None? && Fresh(s) && fiber in s.fibers
    requires n > 0 && hooks == MountedState(s, fiber, n).hooks && HooksOk(hooks, nextHook)
    ensures HookChain(hooks, nextHook, Some(s.nextHook)) == Ids(s.nextHook, n)
  {
    MountedHooksShape(s.hooks, s.cursor, s.nextHook, s.nextQueue, n);
    MountedInOrder(s.hooks, s.nextHook, s.nextQueue, n, hooks, nextHook);
  }

  /**
   * With a cursor left over from an earlier component, the new records are
   * appended to that component's list instead: following `next` from the
   * old cursor meets exactly the new records, in call order.
   */
  lemma MountedAfterStaleCursor(hooks0: map<HookId, Hook>, c: HookId, h0: HookId, q0: QueueId, n: nat,
                                hooks: map<HookId, Hook>, nextHook: nat)
    requires c in hooks0 && n > 0 && HooksOk(hooks, nextHook)
    requires HooksMounted(hooks0, Some(c), h0, q0, n, hooks)
    ensures HookChain(hooks, nextHook, Some(c)) == [c] + Ids(h0, n)
  {
    RunLinked(hooks0, Some(c), h0, q0, n, hooks);
    assert hooks[c].next == Some(h0);
    RunChain(hooks, nextHook, h0, n, 0);
    assert HookChain(hooks, nextHook, Some(c)) == [c] + HookChain(hooks, nextHook, Some(h0));
  }

  /**
   * The `useState` calls of one component call, in order; stops at the first
   * one that throws. Only a missing dispatcher can make them throw here,
   * since a fiber is being rendered.
   */
  method MountHooks(r: Renderer, env: Env, calls: seq<Value>) returns (ok: bool)
    requires r.Valid() && r.currentlyRenderingFiber.Some?
    modifies r
    ensures r.Valid()
    ensures ok <==> old(r.mountDispatcher) || calls == []
    ensures HookStateOf(r) ==
      if ok then MountedState(old(HookStateOf(r)), old(r.currentlyRenderingFiber).value, |calls|) else old(HookStateOf(r))
    ensures Kept(r) == old(Kept(r))
  {
    ghost var s0 := HookStateOf(r);
    ghost var fiber := r.currentlyRenderingFiber.value;
    var i := 0;
    while i < |calls|
      invariant 0 <= i <= |calls| && r.Valid()
      invariant i > 0 ==> old(r.mountDispatcher)
      invariant HookStateOf(r) == MountedState(s0, fiber, i)
      invariant Kept(r) == old(Kept(r))
    {
      StepMounted(s0, fiber, i);
      var res := UseState(r, env, calls[i]);
      if res.None? {
        NoneMountedState(s0, fiber);
        return false;
      }
      i := i + 1;
    }
    return true;
  }

  /** What calling the fiber's `type` with its pending props does; a non-function throws. */
  function CallComponent(env: Env, f: Fiber): (res: ComponentResult)
    ensures !f.fiberType.Fn? ==> res == Threw([])
    ensures f.fiberType.Fn? ==> res == env.render(f.fiberType.id, f.pendingProps)
  {
    if f.fiberType.Fn? then env.render(f.fiberType.id, f.pendingProps) else Threw([])
  }

  /**
   * The start of `renderWithHooks`: `wip` becomes the fiber being rendered,
   * its `memoizedState` is cleared, and the mount dispatcher is installed
   * when it has no alternate (an installed one stays).
   */
  method BeginRender(r: Renderer, wip: FiberId)
    requires r.Valid() && wip in r.fibers
    modifies r
    ensures r.Valid()
    ensures HookStateOf(r) == old(HookStateOf(r)).(fibers := old(r.fibers)[wip := old(r.fibers)[wip].(memoizedState := Plain(Null))])
    ensures r.currentlyRenderingFiber == Some(wip)
    ensures r.mountDispatcher == (old(r.mountDispatcher) || old(r.fibers)[wip].alternate.None?)
    ensures r.nextFiber == old(r.nextFiber) && r.sibRank == old(r.sibRank) && r.log == old(r.log)
    ensures r.nextInstance == old(r.nextInstance) && r.workInProgress == old(r.workInProgress)
  {
    r.currentlyRenderingFiber := Some(wip);
    r.SetFiber(wip, r.fibers[wip].(memoizedState := Plain(Null)));
    if r.fibers[wip].alternate.None? {
      r.mountDispatcher := true;
    }
  }

  /**
   * `renderWithHooks`: marks `wip` as the fiber being rendered, clears its
   * `memoizedState`, installs the mount dispatcher when `wip` has no
   * alternate, calls the component (its `useState` calls build the hook
   * list) and clears the rendering fiber again. A throw (`None`) leaves
   * `wip` marked as being rendered; the hooks a throwing component mounted
   * before its throw stay linked and the hook cursor stays on the last one.
   */
  method RenderWithHooks(r: Renderer, env: Env, wip: FiberId) returns (children: Option<Value>)
    requires r.Valid() && wip in r.fibers
    modifies r
    ensures r.Valid()
    ensures var f := old(r.fibers)[wip];
      var res := CallComponent(env, f);
      var dispatcher := old(r.mountDispatcher) || f.alternate.None?;
      var reset := old(HookStateOf(r)).(fibers := old(r.fibers)[wip := f.(memoizedState := Plain(Null))]);
      var mounted := dispatcher || res.hookCalls == [];
      && r.mountDispatcher == dispatcher
      && (children.Some? <==> res.Rendered? && mounted)
      && HookStateOf(r) == (if mounted then MountedState(reset, wip, |res.hookCalls|) else reset)
      && (children.Some? ==> children.value == res.children && r.currentlyRenderingFiber.None?)
      && (children.None? ==> r.currentlyRenderingFiber == Some(wip))
    ensures r.nextFiber == old(r.nextFiber) && r.sibRank == old(r.sibRank) && r.log == old(r.log)
    ensures r.nextInstance == old(r.nextInstance) && r.workInProgress == old(r.workInProgress)
  {
    BeginRender(r, wip);
    ghost var reset := HookStateOf(r);
    var result := CallComponent(env, r.fibers[wip]);
    var ok := MountHooks(r, env, result.hookCalls);
    if !ok || result.Threw? {
      return None;
    }
    r.currentlyRenderingFiber := None;
    return Some(result.children);
  }
}
