/**
 * Finite trees of fibers, used as ghost witnesses of how `child` and
 * `sibling` links link a part of the arena, and the arena-level facts
 * the link walks of the complete and commit phases share.
 *
 * The walks follow `child`, `sibling` and `return` links with no bound
 * of their own; on a cyclic structure they never end. The model runs each
 * walk on a step budget that a finite tree never exhausts (lemmas next to
 * each walk), and reports a walk that exhausts it as one that would not end.
 */
module FiberTrees {
  import opened JsValues
  import opened Fibers

  /** A fiber and, in order, the trees of the fibers on its `child` chain. */
  datatype Tree = Node(id: FiberId, kids: seq<Tree>)

  /** How a pass ended: normally, with a thrown error, or in a walk the source would never finish. */
  datatype Outcome = Normal | Threw | Diverges

  function Size(t: Tree): (n: nat)
    ensures n >= 1
    decreases t
  {
    1 + SizeF(t.kids)
  }

  function SizeF(ts: seq<Tree>): nat
    decreases ts
  {
    if ts == [] then 0 else Size(ts[0]) + SizeF(ts[1..])
  }

  /** The fiber ids of a forest, in document (pre-)order. */
  function IdsF(ts: seq<Tree>): (ids: seq<FiberId>)
    ensures |ids| == SizeF(ts)
    ensures ts != [] ==> ts[0].id in ids && ts[|ts| - 1].id in ids
    decreases SizeF(ts)
  {
    if ts == [] then []
    else
      assert SizeF(ts) == 1 + SizeF(ts[0].kids) + SizeF(ts[1..]);
      [ts[0].id] + IdsF(ts[0].kids) + IdsF(ts[1..])
  }

  ghost predicate NoDup<T>(s: seq<T>) {
    forall i, j :: 0 <= i < j < |s| ==> s[i] != s[j]
  }

  /**
   * The trees `ts` hang off the sibling chain that starts at `first`: their
   * roots are the chain, in order, and each root's `child` chain carries its
   * kids.
   */
  ghost predicate Forest(a: Arena, first: Option<FiberId>, ts: seq<Tree>)
    decreases SizeF(ts)
  {
    if ts == [] then first.None?
    else
      assert SizeF(ts) == 1 + SizeF(ts[0].kids) + SizeF(ts[1..]);
      && first == Some(ts[0].id) && ts[0].id in a
      && Forest(a, a[ts[0].id].child, ts[0].kids)
      && Forest(a, a[ts[0].id].sibling, ts[1..])
  }

  /** Every fiber of a forest is in the arena. */
  lemma {:induction false} ForestIn(a: Arena, first: Option<FiberId>, ts: seq<Tree>)
    requires Forest(a, first, ts)
    ensures forall x :: x in IdsF(ts) ==> x in a
    decreases SizeF(ts)
  {
    if ts != [] {
      assert SizeF(ts) == 1 + SizeF(ts[0].kids) + SizeF(ts[1..]);
      ForestIn(a, a[ts[0].id].child, ts[0].kids);
      ForestIn(a, a[ts[0].id].sibling, ts[1..]);
    }
  }

  /** A forest only depends on the `child` and `sibling` links of its own fibers. */
  lemma {:induction false} ForestStable(a: Arena, b: Arena, first: Option<FiberId>, ts: seq<Tree>)
    requires Forest(a, first, ts)
    requires forall x :: x in IdsF(ts) ==> x in a && x in b && b[x].child == a[x].child && b[x].sibling == a[x].sibling
    ensures Forest(b, first, ts)
    decreases SizeF(ts)
  {
    if ts != [] {
      assert SizeF(ts) == 1 + SizeF(ts[0].kids) + SizeF(ts[1..]);
      ForestStable(a, b, a[ts[0].id].child, ts[0].kids);
      ForestStable(a, b, a[ts[0].id].sibling, ts[1..]);
    }
  }

  /** Every `return`, `sibling` and `child` link names a fiber of the arena. */
  ghost predicate Closed(a: Arena) {
    forall id {:trigger a[id]} :: id in a ==> OptIn(a[id].ret, a) && OptIn(a[id].sibling, a) && OptIn(a[id].child, a)
  }

  lemma ValidClosed(r: Renderer)
    requires r.Valid()
    ensures Closed(r.fibers)
  {
    forall id | id in r.fibers
      ensures OptIn(r.fibers[id].ret, r.fibers) && OptIn(r.fibers[id].sibling, r.fibers)
      ensures OptIn(r.fibers[id].child, r.fibers)
    {
      assert FiberOk(r.fibers, r.fibers[id], r.hooks, r.queues);
    }
  }

  /**
   * The `return` links a walk has written so far, by fiber; a fiber
   * not in the map keeps the `return` it has in the arena.
   */
  type Rets = map<FiberId, Option<FiberId>>

  /** Every written `return` belongs to a fiber of the arena and names one. */
  ghost predicate RetsIn(a: Arena, rets: Rets) {
    forall x {:trigger rets[x]} :: x in rets ==> x in a && OptIn(rets[x], a)
  }

  /** The `return` of `n` as the walk sees it. */
  function RetOf(a: Arena, rets: Rets, n: FiberId): Option<FiberId> {
    if n in rets then rets[n] else if n in a then a[n].ret else None
  }

  /** The arena with the written `return` links stored. */
  function WithRets(a: Arena, rets: Rets): (b: Arena)
    ensures b.Keys == a.Keys
    ensures forall id {:trigger b[id]} :: id in a ==> b[id] == a[id].(ret := RetOf(a, rets, id))
    ensures Repointed(a, b)
  {
    map id | id in a :: a[id].(ret := RetOf(a, rets, id))
  }

  /** `b` is `a` with some `return` and `child` links moved; nothing else differs. */
  ghost predicate Repointed(a: Arena, b: Arena) {
    && b.Keys == a.Keys
    && forall id {:trigger b[id]} :: id in a ==> b[id] == a[id].(ret := b[id].ret, child := b[id].child)
  }

  lemma RepointedThen(a: Arena, b: Arena, c: Arena)
    requires Repointed(a, b) && Repointed(b, c)
    ensures Repointed(a, c)
  {
    forall id | id in a
      ensures c[id] == a[id].(ret := c[id].ret, child := c[id].child)
    {
      assert b[id] == a[id].(ret := b[id].ret, child := b[id].child);
    }
  }

  /** Moving `return` and `child` links keeps every sibling chain. */
  lemma RepointedRanked(a: Arena, b: Arena, rank: map<FiberId, nat>)
    requires SiblingRanked(a, rank) && Repointed(a, b)
    ensures SiblingRanked(b, rank)
  {
    forall id | id in b
      ensures b[id].sibling == a[id].sibling
    {
      assert b[id] == a[id].(ret := b[id].ret, child := b[id].child);
    }
  }

  lemma WithRetsRelinked(a: Arena, rets: Rets)
    requires Closed(a) && RetsIn(a, rets)
    ensures Relinked(a, WithRets(a, rets))
  {
  }

  /** A sequence without repeats over a set is no longer than the set is large. */
  lemma {:induction false} DistinctBound<T>(s: seq<T>, S: set<T>)
    requires NoDup(s) && forall x :: x in s ==> x in S
    ensures |s| <= |S|
    decreases |s|
  {
    if s != [] {
      assert forall x :: x in s[1..] ==> x in S - {s[0]} by {
        forall x | x in s[1..]
          ensures x in S - {s[0]}
        {
          var k :| 0 <= k < |s[1..]| && s[1..][k] == x;
          assert s[k + 1] == x;
        }
      }
      DistinctBound(s[1..], S - {s[0]});
    }
  }

  /** A forest without repeated fibers has no more fibers than the arena. */
  lemma ForestSizeBound(a: Arena, first: Option<FiberId>, ts: seq<Tree>)
    requires Forest(a, first, ts) && NoDup(IdsF(ts))
    ensures SizeF(ts) <= |a|
  {
    ForestIn(a, first, ts);
    DistinctBound(IdsF(ts), a.Keys);
  }

  /** The step budget of a walk over the arena. */
  function Budget(a: Arena): nat {
    2 * |a| + 2
  }

  /** A budget of moves counted out one `More` at a time: each move takes `rest`. */
  datatype Steps = Out | More(rest: Steps)

  function StepsOf(n: nat): (s: Steps)
    ensures n == 0 <==> s.Out?
  {
    if n == 0 then Out else More(StepsOf(n - 1))
  }

  /**
   * `b` keeps the fibers of `a` with their sibling links, alternates,
   * deletion lists, queues and states, and moves other links only to
   * fibers of the arena.
   */
  ghost predicate Relinked(a: Arena, b: Arena) {
    && b.Keys == a.Keys
    && forall id :: id in a ==>
         && b[id].sibling == a[id].sibling && b[id].alternate == a[id].alternate
         && b[id].deletions == a[id].deletions && b[id].updateQueue == a[id].updateQueue
         && b[id].memoizedState == a[id].memoizedState
         && OptIn(b[id].ret, a) && OptIn(b[id].child, a)
  }

  lemma RelinkedKeepsOk(a: Arena, next: nat, hooks: map<HookId, Hook>, queues: map<QueueId, UpdateQueue>,
                        rank: map<FiberId, nat>, b: Arena)
    requires FibersOk(a, next, hooks, queues, rank) && Relinked(a, b)
    ensures FibersOk(b, next, hooks, queues, rank)
  {
    forall id | id in b
      ensures id < next && FiberOk(b, b[id], hooks, queues)
    {
      assert FiberOk(a, a[id], hooks, queues);
    }
  }

  /** Stores a relinked arena (see `Relinked`). */
  method StoreFibers(r: Renderer, b: Arena)
    requires r.Valid() && Relinked(r.fibers, b)
    modifies r
    ensures r.Valid() && r.fibers == b
    ensures r.nextFiber == old(r.nextFiber) && r.sibRank == old(r.sibRank)
    ensures r.Rest() == old(r.Rest()) && r.log == old(r.log)
  {
    RelinkedKeepsOk(r.fibers, r.nextFiber, r.hooks, r.queues, r.sibRank, b);
    r.fibers := b;
  }
}
