/**
 * The host lookups of the commit phase: the host parent a placed or
 * deleted fiber hangs under, the host sibling a placed fiber goes before,
 * and the insertion of a placed subtree's host nodes.
 */
module CommitHost {
  import opened JsValues
  import opened Fibers
  import opened FiberTrees
  import opened CompleteWork
  import opened AppendWalkTrees

  // ---------------------------------------------------------------------
  // getHostParent

  /** What a lookup along links found: a host node, nothing, or a walk that would not end. */
  datatype Lookup = Found(node: StateNode) | Missing | Stuck

  /** A fiber whose host node children are appended to: a host component, or the root. */
  predicate ParentTag(tag: WorkTag) {
    tag == HostComponent || tag == HostRoot
  }

  /** The host container of such a fiber: its instance, or the root object's container. */
  function ContainerOf(f: Fiber): StateNode {
    if f.tag == HostRoot then
      match f.stateNode
      case RootNode(root) => Instance(root.container)
      case _ => NoInstance
    else f.stateNode
  }

  /** The loop of `getHostParent` from `parent`, with `fuel` steps left. */
  function HostParentFrom(a: Arena, parent: Option<FiberId>, fuel: nat): Lookup
    decreases fuel
  {
    if parent.None? then Missing
    else if fuel == 0 || parent.value !in a then Stuck
    else if ParentTag(a[parent.value].tag) then Found(ContainerOf(a[parent.value]))
    else HostParentFrom(a, a[parent.value].ret, fuel - 1)
  }

  /** `getHostParent(fiber)`. */
  method GetHostParent(a: Arena, fiber: FiberId) returns (l: Lookup)
    requires fiber in a
    ensures l == HostParentFrom(a, a[fiber].ret, Budget(a))
  {
    var parent := a[fiber].ret;
    var fuel: nat := Budget(a);
    while parent.Some?
      invariant HostParentFrom(a, parent, fuel) == HostParentFrom(a, a[fiber].ret, Budget(a))
      decreases fuel
    {
      if fuel == 0 || parent.value !in a {
        return Stuck;
      }
      var p := parent.value;
      if a[p].tag == HostComponent || a[p].tag == HostRoot {
        return Found(ContainerOf(a[p]));
      }
      parent := a[p].ret;
      fuel := fuel - 1;
    }
    return Missing;
  }

  /** `ps` are the fibers met by following `return` from `start`, in order. */
  ghost predicate RetPath(a: Arena, start: Option<FiberId>, ps: seq<FiberId>) {
    && ps != [] && start == Some(ps[0])
    && (forall i :: 0 <= i < |ps| ==> ps[i] in a)
    && (forall i :: 0 <= i < |ps| - 1 ==> a[ps[i]].ret == Some(ps[i + 1]))
  }

  /**
   * `getHostParent` finds the nearest ancestor that is a host component or
   * the root, and gives that fiber's container.
   */
  lemma {:induction false} HostParentNearest(a: Arena, start: Option<FiberId>, ps: seq<FiberId>, fuel: nat)
    requires RetPath(a, start, ps) && fuel >= |ps|
    requires forall i :: 0 <= i < |ps| - 1 ==> !ParentTag(a[ps[i]].tag)
    requires ParentTag(a[ps[|ps| - 1]].tag)
    ensures HostParentFrom(a, start, fuel) == Found(ContainerOf(a[ps[|ps| - 1]]))
    decreases |ps|
  {
    if |ps| > 1 {
      assert RetPath(a, a[ps[0]].ret, ps[1..]);
      HostParentNearest(a, a[ps[0]].ret, ps[1..], fuel - 1);
    }
  }

  /** With no host component or root among the ancestors, `getHostParent` gives null. */
  lemma {:induction false} HostParentNone(a: Arena, start: Option<FiberId>, ps: seq<FiberId>, fuel: nat)
    requires RetPath(a, start, ps) && fuel >= |ps|
    requires forall i :: 0 <= i < |ps| ==> !ParentTag(a[ps[i]].tag)
    requires a[ps[|ps| - 1]].ret.None?
    ensures HostParentFrom(a, start, fuel) == Missing
    decreases |ps|
  {
    if |ps| > 1 {
      assert RetPath(a, a[ps[0]].ret, ps[1..]);
      HostParentNone(a, a[ps[0]].ret, ps[1..], fuel - 1);
    }
  }

  // ---------------------------------------------------------------------
  // getHostSibling

  /** Where `getHostSibling` got to: the host fiber whose instance it returns, the `return` links it wrote, and whether it ended. */
  datatype Sought = Sought(sibling: Option<FiberId>, rets: Rets, ended: bool)

  /** The `findSibling` loop at its head, at `node`: climb while there is no sibling, then move to the sibling. */
  function SiblingUp(a: Arena, rets: Rets, node: FiberId, fuel: nat): Sought
    decreases fuel
  {
    if fuel == 0 || node !in a then Sought(None, rets, false)
    else if a[node].sibling.None? then
      var parent := RetOf(a, rets, node);
      if parent.None? then Sought(None, rets, true)
      else if parent.value !in a then Sought(None, rets, false)
      else if IsHost(a[parent.value].tag) then Sought(None, rets, true)
      else SiblingUp(a, rets, parent.value, fuel - 1)
    else
      var s := a[node].sibling.value;
      SiblingDown(a, rets[s := RetOf(a, rets, node)], s, fuel - 1)
  }

  /** The descent to the first host fiber; a placed fiber or a leaf sends the search back to `findSibling`. */
  function SiblingDown(a: Arena, rets: Rets, node: FiberId, fuel: nat): Sought
    decreases fuel
  {
    if fuel == 0 || node !in a then Sought(None, rets, false)
    else if !IsHost(a[node].tag) then
      if Placement in a[node].flags || a[node].child.None? then SiblingUp(a, rets, node, fuel - 1)
      else
        var c := a[node].child.value;
        SiblingDown(a, rets[c := Some(node)], c, fuel - 1)
    else if Placement !in a[node].flags then Sought(Some(node), rets, true)
    else SiblingUp(a, rets, node, fuel - 1)
  }

  /** `getHostSibling(fiber)`; the `return` links it writes are collected for the caller to store. */
  method GetHostSibling(a: Arena, fiber: FiberId) returns (s: Sought)
    requires Closed(a) && fiber in a
    ensures s == SiblingUp(a, map[], fiber, Budget(a)) && RetsIn(a, s.rets)
  {
    ghost var whole := SiblingUp(a, map[], fiber, Budget(a));
    var rets: Rets, fuel: nat := map[], Budget(a);
    var node := fiber;
    label findSibling:
    while true
      invariant RetsIn(a, rets) && node in a && SiblingUp(a, rets, node, fuel) == whole
      decreases fuel
    {
      while a[node].sibling.None?
        invariant RetsIn(a, rets) && node in a && SiblingUp(a, rets, node, fuel) == whole
        decreases fuel
      {
        if fuel == 0 {
          return Sought(None, rets, false);
        }
        var parent := RetOf(a, rets, node);
        if parent.None? || IsHost(a[parent.value].tag) {
          return Sought(None, rets, true);
        }
        node := parent.value;
        fuel := fuel - 1;
      }
      if fuel == 0 {
        return Sought(None, rets, false);
      }
      var sibling := a[node].sibling.value;
      rets := rets[sibling := RetOf(a, rets, node)];
      node := sibling;
      fuel := fuel - 1;
      while !IsHost(a[node].tag)
        invariant RetsIn(a, rets) && node in a && SiblingDown(a, rets, node, fuel) == whole
        decreases fuel
      {
        if fuel == 0 {
          return Sought(None, rets, false);
        }
        if Placement in a[node].flags || a[node].child.None? {
          fuel := fuel - 1;
          continue findSibling;
        }
        var c := a[node].child.value;
        rets := rets[c := Some(node)];
        node := c;
        fuel := fuel - 1;
      }
      if fuel == 0 {
        return Sought(None, rets, false);
      }
      if Placement !in a[node].flags {
        return Sought(Some(node), rets, true);
      }
      fuel := fuel - 1;
    }
  }

  /** A found host sibling is a host fiber of the arena that is not itself being placed. */
  ghost predicate Unplaced(a: Arena, s: Sought) {
    s.sibling.Some? ==> s.sibling.value in a && IsHost(a[s.sibling.value].tag) && Placement !in a[s.sibling.value].flags
  }

  /** `getHostSibling` never returns the instance of a fiber carrying `Placement`. */
  lemma {:induction false} SiblingUpUnplaced(a: Arena, rets: Rets, node: FiberId, fuel: nat)
    ensures Unplaced(a, SiblingUp(a, rets, node, fuel))
    decreases fuel
  {
    if fuel > 0 && node in a {
      if a[node].sibling.None? {
        var parent := RetOf(a, rets, node);
        if parent.Some? && parent.value in a && !IsHost(a[parent.value].tag) {
          SiblingUpUnplaced(a, rets, parent.value, fuel - 1);
        }
      } else {
        var s := a[node].sibling.value;
        SiblingDownUnplaced(a, rets[s := RetOf(a, rets, node)], s, fuel - 1);
      }
    }
  }

  lemma {:induction false} SiblingDownUnplaced(a: Arena, rets: Rets, node: FiberId, fuel: nat)
    ensures Unplaced(a, SiblingDown(a, rets, node, fuel))
    decreases fuel
  {
    if fuel > 0 && node in a {
      if !IsHost(a[node].tag) {
        if Placement in a[node].flags || a[node].child.None? {
          SiblingUpUnplaced(a, rets, node, fuel - 1);
        } else {
          var c := a[node].child.value;
          SiblingDownUnplaced(a, rets[c := Some(node)], c, fuel - 1);
        }
      } else if Placement in a[node].flags {
        SiblingUpUnplaced(a, rets, node, fuel - 1);
      }
    }
  }

  // ---------------------------------------------------------------------
  // insertOrAppendPlacementNodeIntoContainer

  /** `insertChildToContainer(child, parent, before)` when `before` is an instance, else `appendChildToContainer(parent, child)`. */
  function InsertOp(parent: StateNode, before: StateNode, child: StateNode): HostOp {
    if before != NoInstance then InsertChildToContainer(child, parent, before) else AppendChildToContainer(parent, child)
  }

  /** The host operations of a placement, and whether its recursion ended. */
  datatype Placed = Placed(ops: seq<HostOp>, ended: bool)

  /** `p`, then `q` if `p` ended. */
  function Then(p: Placed, q: Placed): Placed {
    if !p.ended then p else Placed(p.ops + q.ops, q.ended)
  }

  lemma ThenAssoc(p: Placed, q: Placed, u: Placed)
    ensures Then(p, Then(q, u)) == Then(Then(p, q), u)
  {
    if p.ended && q.ended {
      assert p.ops + (q.ops + u.ops) == (p.ops + q.ops) + u.ops;
    }
  }

  /**
   * `insertOrAppendPlacementNodeIntoContainer(node, parent, before)` with
   * recursion depth `fuel`: a host fiber is inserted, any other fiber
   * places each fiber of its child chain. The source's recursive calls
   * pass no `before`; `keepBefore` passes it on instead.
   */
  ghost function Place(a: Arena, rank: map<FiberId, nat>, node: FiberId, parent: StateNode, before: StateNode,
                       keepBefore: bool, fuel: nat): Placed
    requires SiblingRanked(a, rank)
    decreases fuel, 0
  {
    if fuel == 0 || node !in a then Placed([], false)
    else if IsHost(a[node].tag) then Placed([InsertOp(parent, before, a[node].stateNode)], true)
    else if a[node].child.None? then Placed([], true)
    else if a[node].child.value !in a then Placed([], false)
    else
      PlaceChain(a, rank, ChainOf(a, rank, a[node].child), parent, if keepBefore then before else NoInstance,
                 keepBefore, fuel - 1)
  }

  ghost function PlaceChain(a: Arena, rank: map<FiberId, nat>, chain: seq<FiberId>, parent: StateNode, before: StateNode,
                            keepBefore: bool, fuel: nat): Placed
    requires SiblingRanked(a, rank)
    decreases fuel, |chain| + 1
  {
    if chain == [] then Placed([], true)
    else Then(Place(a, rank, chain[0], parent, before, keepBefore, fuel),
              PlaceChain(a, rank, chain[1..], parent, before, keepBefore, fuel))
  }

  /** `insertOrAppendPlacementNodeIntoContainer`, with the recursion depth bounded by `fuel`. */
  method InsertOrAppendPlacementNodeIntoContainer(a: Arena, ghost rank: map<FiberId, nat>, node: FiberId, parent: StateNode,
                                                  before: StateNode, keepBefore: bool, fuel: nat) returns (p: Placed)
    requires SiblingRanked(a, rank)
    ensures p == Place(a, rank, node, parent, before, keepBefore, fuel)
    decreases fuel, 0
  {
    if fuel == 0 || node !in a {
      return Placed([], false);
    }
    if a[node].tag == HostComponent || a[node].tag == HostText {
      return Placed([InsertOp(parent, before, a[node].stateNode)], true);
    }
    var child := a[node].child;
    if child.None? {
      return Placed([], true);
    }
    if child.value !in a {
      return Placed([], false);
    }
    var inner := if keepBefore then before else NoInstance;
    p := PlaceChildren(a, rank, child.value, parent, inner, keepBefore, fuel - 1);
  }

  /** The sibling loop of `insertOrAppendPlacementNodeIntoContainer`: places the chain that starts at `first`. */
  method PlaceChildren(a: Arena, ghost rank: map<FiberId, nat>, first: FiberId, parent: StateNode,
                       before: StateNode, keepBefore: bool, fuel: nat) returns (p: Placed)
    requires SiblingRanked(a, rank) && first in a
    ensures p == PlaceChain(a, rank, ChainOf(a, rank, Some(first)), parent, before, keepBefore, fuel)
    decreases fuel, 1
  {
    ghost var chain := ChainOf(a, rank, Some(first));
    ghost var whole := PlaceChain(a, rank, chain, parent, before, keepBefore, fuel);
    p := InsertOrAppendPlacementNodeIntoContainer(a, rank, first, parent, before, keepBefore, fuel);
    var sibling := a[first].sibling;
    ghost var i := 1;
    assert LinkAt(a, chain, 0);
    while sibling.Some? && p.ended
      invariant 1 <= i <= |chain| && sibling == (if i < |chain| then Some(chain[i]) else None)
      invariant Then(p, PlaceChain(a, rank, chain[i..], parent, before, keepBefore, fuel)) == whole
      decreases |chain| - i
    {
      assert LinkAt(a, chain, i);
      var q := InsertOrAppendPlacementNodeIntoContainer(a, rank, sibling.value, parent, before, keepBefore, fuel);
      ThenAssoc(p, q, PlaceChain(a, rank, chain[i + 1..], parent, before, keepBefore, fuel));
      p := Then(p, q);
      sibling := a[sibling.value].sibling;
      i := i + 1;
    }
    if p.ended {
      assert chain[i..] == [];
      assert p.ops + [] == p.ops;
    }
  }

  /** The operations of placing the fibers `xs` under `parent` before `before`, in order. */
  function Inserts(a: Arena, parent: StateNode, before: StateNode, xs: seq<FiberId>): seq<HostOp> {
    if xs == [] then [] else [InsertOp(parent, before, StateOf(a, xs[0]))] + Inserts(a, parent, before, xs[1..])
  }

  lemma {:induction false} InsertsConcat(a: Arena, parent: StateNode, before: StateNode, xs: seq<FiberId>, ys: seq<FiberId>)
    ensures Inserts(a, parent, before, xs + ys) == Inserts(a, parent, before, xs) + Inserts(a, parent, before, ys)
  {
    if xs != [] {
      var op := InsertOp(parent, before, StateOf(a, xs[0]));
      assert (xs + ys)[0] == xs[0] && (xs + ys)[1..] == xs[1..] + ys;
      InsertsConcat(a, parent, before, xs[1..], ys);
      assert [op] + (Inserts(a, parent, before, xs[1..]) + Inserts(a, parent, before, ys))
          == ([op] + Inserts(a, parent, before, xs[1..])) + Inserts(a, parent, before, ys);
    } else {
      assert xs + ys == ys;
    }
  }

  /** The roots of a forest, in order. */
  function Roots(ts: seq<Tree>): (ids: seq<FiberId>)
    ensures |ids| == |ts| && forall i :: 0 <= i < |ts| ==> ids[i] == ts[i].id
  {
    if ts == [] then [] else [ts[0].id] + Roots(ts[1..])
  }

  /** The roots of a forest are the sibling chain it hangs off. */
  lemma {:induction false} ForestIsChain(a: Arena, first: Option<FiberId>, ts: seq<Tree>)
    requires Forest(a, first, ts)
    ensures IsChain(a, first, Roots(ts))
    decreases |ts|
  {
    if ts != [] {
      var next := a[ts[0].id].sibling;
      ForestIsChain(a, next, ts[1..]);
      var c := Roots(ts);
      forall i: nat | i < |c|
        ensures LinkAt(a, c, i)
      {
        if i > 0 {
          assert LinkAt(a, Roots(ts[1..]), i - 1);
        } else if |c| > 1 {
          assert LinkAt(a, Roots(ts[1..]), 0);
        }
      }
    }
  }

  /**
   * Placing a finite tree with `before` passed on (or with no `before` to
   * pass): every host fiber of the tree with no host fiber above it is
   * inserted before `before`, in document order.
   */
  lemma {:induction false} PlaceTree(a: Arena, rank: map<FiberId, nat>, t: Tree, parent: StateNode, before: StateNode,
                                     keepBefore: bool, fuel: nat)
    requires SiblingRanked(a, rank) && t.id in a && Forest(a, a[t.id].child, t.kids) && fuel >= Size(t)
    requires keepBefore || before == NoInstance
    ensures Place(a, rank, t.id, parent, before, keepBefore, fuel) == Placed(Inserts(a, parent, before, FrontierT(a, t)), true)
    decreases t, 1
  {
    if !IsHost(a[t.id].tag) && t.kids != [] {
      PlaceForest(a, rank, a[t.id].child, t.kids, parent, before, keepBefore, fuel - 1);
    }
  }

  lemma {:induction false} PlaceForest(a: Arena, rank: map<FiberId, nat>, first: Option<FiberId>, ts: seq<Tree>,
                                       parent: StateNode, before: StateNode, keepBefore: bool, fuel: nat)
    requires SiblingRanked(a, rank) && Forest(a, first, ts) && fuel >= SizeF(ts)
    requires keepBefore || before == NoInstance
    ensures OptIn(first, a) && ChainOf(a, rank, first) == Roots(ts)
    ensures PlaceChain(a, rank, Roots(ts), parent, before, keepBefore, fuel)
         == Placed(Inserts(a, parent, before, Frontier(a, ts)), true)
    decreases ts, 0
  {
    ForestIsChain(a, first, ts);
    ChainUnique(a, first, ChainOf(a, rank, first), Roots(ts));
    if ts != [] {
      PlaceTree(a, rank, ts[0], parent, before, keepBefore, fuel);
      PlaceForest(a, rank, a[ts[0].id].sibling, ts[1..], parent, before, keepBefore, fuel);
      InsertsConcat(a, parent, before, FrontierT(a, ts[0]), Frontier(a, ts[1..]));
    }
  }

  /**
   * As written, placing a finite tree whose root is not a host fiber drops
   * `before`: every host fiber of the tree with no host fiber above it is
   * appended to the end of the container, whatever `before` is.
   */
  lemma {:induction false} PlaceTreeAsWritten(a: Arena, rank: map<FiberId, nat>, t: Tree, parent: StateNode,
                                              before: StateNode, fuel: nat)
    requires SiblingRanked(a, rank) && t.id in a && Forest(a, a[t.id].child, t.kids) && fuel >= Size(t)
    requires !IsHost(a[t.id].tag)
    ensures Place(a, rank, t.id, parent, before, false, fuel)
         == Placed(Inserts(a, parent, NoInstance, FrontierT(a, t)), true)
    ensures forall op :: op in Place(a, rank, t.id, parent, before, false, fuel).ops ==> op.AppendChildToContainer?
  {
    if t.kids != [] {
      PlaceForest(a, rank, a[t.id].child, t.kids, parent, NoInstance, false, fuel - 1);
    }
    InsertsAppend(a, parent, FrontierT(a, t));
  }

  /** With no `before`, every operation of `Inserts` is an append. */
  lemma {:induction false} InsertsAppend(a: Arena, parent: StateNode, xs: seq<FiberId>)
    ensures forall op :: op in Inserts(a, parent, NoInstance, xs) ==> op.AppendChildToContainer?
  {
    if xs != [] {
      InsertsAppend(a, parent, xs[1..]);
    }
  }

  /** A function component fiber 1 whose only child is a host component fiber 2 with instance 7. */
  function DropExample(): Arena {
    map[1 := NewFiber(FunctionComponent, Null, Null).(child := Some(2)),
        2 := NewFiber(HostComponent, Null, Null).(ret := Some(1), stateNode := Instance(7))]
  }

  /**
   * As written, placing fiber 1 under instance 5 before the host sibling
   * instance 9 appends instance 7 at the end of the container instead of
   * inserting it before instance 9, which the corrected placement does.
   */
  lemma PlaceAsWrittenDropsBefore()
    ensures SiblingRanked(DropExample(), map[1 := 0, 2 := 0])
    ensures Place(DropExample(), map[1 := 0, 2 := 0], 1, Instance(5), Instance(9), false, 2).ops
         == [AppendChildToContainer(Instance(5), Instance(7))]
    ensures Place(DropExample(), map[1 := 0, 2 := 0], 1, Instance(5), Instance(9), true, 2).ops
         == [InsertChildToContainer(Instance(7), Instance(5), Instance(9))]
  {
    var a, rank := DropExample(), map[1 := 0, 2 := 0];
    assert ChainOf(a, rank, Some(2)) == [2];
  }

  // ---------------------------------------------------------------------
  // commitPlacement and commitUpdate

  /** How a commit step ended, the arena after it and the host operations it issued. */
  datatype Committed = Committed(outcome: Outcome, fibers: Arena, ops: seq<HostOp>)

  /** The host node a placement goes before: the found sibling's instance, or none. */
  function BeforeOf(a: Arena, s: Sought): StateNode {
    if s.sibling.Some? then StateOf(a, s.sibling.value) else NoInstance
  }

  /**
   * `commitPlacement(fiber)`: find the host parent, then the host sibling
   * (storing the `return` links that search writes), and insert the
   * fiber's host nodes when there is a host parent.
   */
  ghost function PlacementOf(a: Arena, rank: map<FiberId, nat>, fiber: FiberId): (c: Committed)
    requires SiblingRanked(a, rank) && fiber in a
    ensures Repointed(a, c.fibers)
  {
    var parent := HostParentFrom(a, a[fiber].ret, Budget(a));
    if parent.Stuck? then Committed(Diverges, a, [])
    else
      var s := SiblingUp(a, map[], fiber, Budget(a));
      var b := WithRets(a, s.rets);
      SameSiblingsRanked(a, b, rank);
      if !s.ended then Committed(Diverges, b, [])
      else if parent.Missing? || parent.node == NoInstance then Committed(Normal, b, [])
      else
        var p := Place(b, rank, fiber, parent.node, BeforeOf(b, s), true, Budget(b));
        Committed(if p.ended then Normal else Diverges, b, p.ops)
  }

  method CommitPlacement(a: Arena, ghost rank: map<FiberId, nat>, fiber: FiberId) returns (c: Committed)
    requires SiblingRanked(a, rank) && Closed(a) && fiber in a
    ensures c == PlacementOf(a, rank, fiber) && Relinked(a, c.fibers)
  {
    var parent := GetHostParent(a, fiber);
    if parent.Stuck? {
      return Committed(Diverges, a, []);
    }
    var s := GetHostSibling(a, fiber);
    var b := WithRets(a, s.rets);
    WithRetsRelinked(a, s.rets);
    SameSiblingsRanked(a, b, rank);
    if !s.ended {
      return Committed(Diverges, b, []);
    }
    if parent.Missing? || parent.node == NoInstance {
      return Committed(Normal, b, []);
    }
    var p := InsertOrAppendPlacementNodeIntoContainer(b, rank, fiber, parent.node, BeforeOf(b, s), true, Budget(b));
    return Committed(if p.ended then Normal else Diverges, b, p.ops);
  }

  /**
   * Placing a finite subtree under a found host parent inserts, in
   * document order, each host fiber of the subtree with no host fiber
   * above it, before the instance of a host fiber that is not itself being
   * placed (or at the end), and writes nothing but `return` links.
   */
  lemma PlacementTree(a: Arena, rank: map<FiberId, nat>, fiber: FiberId, kids: seq<Tree>, c: StateNode)
    requires SiblingRanked(a, rank) && Closed(a) && fiber in a
    requires Forest(a, a[fiber].child, kids) && NoDup(IdsF(kids))
    requires HostParentFrom(a, a[fiber].ret, Budget(a)) == Found(c) && c != NoInstance
    requires SiblingUp(a, map[], fiber, Budget(a)).ended
    ensures var s := SiblingUp(a, map[], fiber, Budget(a));
            var p := PlacementOf(a, rank, fiber);
            && Unplaced(a, s)
            && p.outcome == Normal && p.fibers == WithRets(a, s.rets)
            && p.ops == Inserts(p.fibers, c, BeforeOf(p.fibers, s), FrontierT(p.fibers, Node(fiber, kids)))
  {
    var s := SiblingUp(a, map[], fiber, Budget(a));
    var b := WithRets(a, s.rets);
    SiblingUpUnplaced(a, map[], fiber, Budget(a));
    SameSiblingsRanked(a, b, rank);
    ForestSizeBound(a, a[fiber].child, kids);
    ForestIn(a, a[fiber].child, kids);
    ForestStable(a, b, a[fiber].child, kids);
    PlaceTree(b, rank, Node(fiber, kids), c, BeforeOf(b, s), true, Budget(b));
  }

  /**
   * `commitUpdate(fiber)`: a host text fiber's instance takes the text of
   * its `content` prop; `None` when reading that prop throws. Other tags
   * issue nothing.
   */
  function UpdateOps(f: Fiber): (ops: Option<seq<HostOp>>)
    ensures ops.None? <==> f.tag == HostText && (f.memoizedProps.Null? || f.memoizedProps.Undefined?)
    ensures ops.Some? && f.tag != HostText ==> ops.value == []
    ensures ops.Some? && f.tag == HostText ==> ops.value == [CommitTextUpdate(f.stateNode, Get(f.memoizedProps, "content"))]
  {
    if f.tag != HostText then Some([])
    else
      match ReadProp(f.memoizedProps, "content")
      case None => None
      case Some(text) => Some([CommitTextUpdate(f.stateNode, text)])
  }
}
