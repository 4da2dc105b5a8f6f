/**
 * The walk of `commitNestedComponent`: a pre-order walk over the subtree
 * of a deleted fiber that stops when it climbs back to that fiber, writing
 * `return` links on its way down and across.
 */
module NestedWalk {
  import opened JsValues
  import opened Fibers
  import opened FiberTrees
  import opened AppendWalkTrees

  /** The fibers a walk visited, in order, the `return` links it wrote, and whether it ended. */
  datatype Nested = Nested(visits: seq<FiberId>, rets: Rets, ended: bool)

  function Before(xs: seq<FiberId>, w: Nested): Nested {
    w.(visits := xs + w.visits)
  }

  /**
   * The outer loop of `commitNestedComponent` at `node`: visit it, go down
   * to its child, stop at `root` when it has none, else climb.
   */
  function NestDown(a: Arena, rets: Rets, root: FiberId, node: FiberId, fuel: nat): Nested
    decreases fuel
  {
    if fuel == 0 || node !in a then Nested([], rets, false)
    else if a[node].child.Some? then
      var c := a[node].child.value;
      Before([node], NestDown(a, rets[c := Some(node)], root, c, fuel - 1))
    else if node == root then Nested([node], rets, true)
    else Before([node], NestUp(a, rets, root, node, fuel - 1))
  }

  /**
   * The inner loop: climb while there is no sibling, and stop at a fiber
   * whose `return` is null or `root`; otherwise move to the sibling, which
   * gets the same `return`.
   */
  function NestUp(a: Arena, rets: Rets, root: FiberId, node: FiberId, fuel: nat): Nested
    decreases fuel
  {
    if fuel == 0 || node !in a then Nested([], rets, false)
    else if a[node].sibling.None? then
      var r := RetOf(a, rets, node);
      if r.None? || r == Some(root) then Nested([], rets, true)
      else NestUp(a, rets, root, r.value, fuel - 1)
    else
      var s := a[node].sibling.value;
      NestDown(a, rets[s := RetOf(a, rets, node)], root, s, fuel - 1)
  }

  lemma DownChild(a: Arena, rets: Rets, root: FiberId, n: FiberId, fuel: nat)
    requires n in a && fuel > 0 && a[n].child.Some?
    ensures NestDown(a, rets, root, n, fuel)
         == Before([n], NestDown(a, rets[a[n].child.value := Some(n)], root, a[n].child.value, fuel - 1))
  {
  }

  lemma DownLeaf(a: Arena, rets: Rets, root: FiberId, n: FiberId, fuel: nat)
    requires n in a && fuel > 0 && a[n].child.None? && n != root
    ensures NestDown(a, rets, root, n, fuel) == Before([n], NestUp(a, rets, root, n, fuel - 1))
  {
  }

  lemma UpOver(a: Arena, rets: Rets, root: FiberId, n: FiberId, fuel: nat)
    requires n in a && fuel > 0 && a[n].sibling.Some?
    ensures NestUp(a, rets, root, n, fuel)
         == NestDown(a, rets[a[n].sibling.value := RetOf(a, rets, n)], root, a[n].sibling.value, fuel - 1)
  {
  }

  /** The loop's invariant across a move down to the child. */
  lemma DownChildStep(a: Arena, rets: Rets, root: FiberId, n: FiberId, fuel: nat, visits: seq<FiberId>, whole: Nested)
    requires n in a && fuel > 0 && a[n].child.Some? && Before(visits, NestDown(a, rets, root, n, fuel)) == whole
    ensures Before(visits + [n], NestDown(a, rets[a[n].child.value := Some(n)], root, a[n].child.value, fuel - 1)) == whole
  {
    var c := a[n].child.value;
    DownChild(a, rets, root, n, fuel);
    BeforeBefore(visits, [n], NestDown(a, rets[c := Some(n)], root, c, fuel - 1));
  }

  /** The loop's invariant across a leaf, before the climb. */
  lemma DownLeafStep(a: Arena, rets: Rets, root: FiberId, n: FiberId, fuel: nat, visits: seq<FiberId>, whole: Nested)
    requires n in a && fuel > 0 && a[n].child.None? && n != root && Before(visits, NestDown(a, rets, root, n, fuel)) == whole
    ensures Before(visits + [n], NestUp(a, rets, root, n, fuel - 1)) == whole
  {
    DownLeaf(a, rets, root, n, fuel);
    BeforeBefore(visits, [n], NestUp(a, rets, root, n, fuel - 1));
  }

  /** The loop's invariant across a move over to the sibling. */
  lemma UpOverStep(a: Arena, rets: Rets, root: FiberId, n: FiberId, fuel: nat, visits: seq<FiberId>, whole: Nested)
    requires n in a && fuel > 0 && a[n].sibling.Some? && Before(visits, NestUp(a, rets, root, n, fuel)) == whole
    ensures Before(visits, NestDown(a, rets[a[n].sibling.value := RetOf(a, rets, n)], root, a[n].sibling.value, fuel - 1)) == whole
  {
    UpOver(a, rets, root, n, fuel);
  }

  /** Every fiber the walk visits is in the arena. */
  lemma {:induction false} NestDownIn(a: Arena, rets: Rets, root: FiberId, node: FiberId, fuel: nat)
    ensures forall x :: x in NestDown(a, rets, root, node, fuel).visits ==> x in a
    decreases fuel, 1
  {
    if fuel > 0 && node in a {
      if a[node].child.Some? {
        NestDownIn(a, rets[a[node].child.value := Some(node)], root, a[node].child.value, fuel - 1);
      } else if node != root {
        NestUpIn(a, rets, root, node, fuel - 1);
      }
    }
  }

  lemma {:induction false} NestUpIn(a: Arena, rets: Rets, root: FiberId, node: FiberId, fuel: nat)
    ensures forall x :: x in NestUp(a, rets, root, node, fuel).visits ==> x in a
    decreases fuel, 0
  {
    if fuel > 0 && node in a {
      if a[node].sibling.None? {
        var r := RetOf(a, rets, node);
        if !(r.None? || r == Some(root)) {
          NestUpIn(a, rets, root, r.value, fuel - 1);
        }
      } else {
        var s := a[node].sibling.value;
        NestDownIn(a, rets[s := RetOf(a, rets, node)], root, s, fuel - 1);
      }
    }
  }

  /** The steps the walk spends in a tree that is not the walk's root, from arriving at it to being ready to leave it. */
  function NCost(t: Tree): nat
    decreases t
  {
    if t.kids == [] then 1 else NCostF(t.kids) + 2
  }

  function NCostF(ts: seq<Tree>): nat
    decreases ts
  {
    if ts == [] then 0
    else if |ts| == 1 then NCost(ts[0])
    else NCost(ts[0]) + 1 + NCostF(ts[1..])
  }

  /** The `return` links the walk writes in a tree: each fiber's kids point at it. */
  function NFixTree(a: Arena, rets: Rets, t: Tree): Rets
    decreases t
  {
    if t.kids == [] then rets else NFixForest(a, rets[t.kids[0].id := Some(t.id)], t.kids)
  }

  /** The same for a forest whose first root's `return` is written: each next root gets the same `return`. */
  function NFixForest(a: Arena, rets: Rets, ts: seq<Tree>): Rets
    decreases ts
  {
    if ts == [] then rets
    else
      var b := NFixTree(a, rets, ts[0]);
      if |ts| == 1 then b else NFixForest(a, b[ts[1].id := RetOf(a, b, ts[0].id)], ts[1..])
  }

  /** Walking a tree writes the `return` links of its descendants only. */
  lemma {:induction false} NFixTreeFrame(a: Arena, rets: Rets, t: Tree, x: FiberId)
    requires x !in IdsF(t.kids)
    ensures RetOf(a, NFixTree(a, rets, t), x) == RetOf(a, rets, x)
    decreases t
  {
    if t.kids != [] {
      IdsFirst(t.kids);
      NFixForestFrame(a, rets[t.kids[0].id := Some(t.id)], t.kids, x);
    }
  }

  lemma {:induction false} NFixForestFrame(a: Arena, rets: Rets, ts: seq<Tree>, x: FiberId)
    requires ts != [] && x !in IdsF(ts[0].kids) + IdsF(ts[1..])
    ensures RetOf(a, NFixForest(a, rets, ts), x) == RetOf(a, rets, x)
    decreases ts
  {
    var b := NFixTree(a, rets, ts[0]);
    NFixTreeFrame(a, rets, ts[0], x);
    if |ts| > 1 {
      IdsFirst(ts[1..]);
      assert ts[1..][0] == ts[1] && ts[1..][1..] == ts[2..];
      NFixForestFrame(a, b[ts[1].id := RetOf(a, b, ts[0].id)], ts[1..], x);
    }
  }

  /** The `return` the walk leaves on a forest's last root is the one its first root had. */
  lemma {:induction false} NFixForestLast(a: Arena, rets: Rets, ts: seq<Tree>)
    requires ts != [] && NoDup(IdsF(ts))
    ensures RetOf(a, NFixForest(a, rets, ts), ts[|ts| - 1].id) == RetOf(a, rets, ts[0].id)
    decreases ts
  {
    var t := ts[0];
    IdsFirst(ts);
    NoDupSplit([t.id] + IdsF(t.kids), IdsF(ts[1..]));
    NoDupSplit([t.id], IdsF(t.kids));
    NFixTreeFrame(a, rets, t, t.id);
    if |ts| > 1 {
      var b0 := NFixTree(a, rets, t);
      var rest := ts[1..];
      NFixForestLast(a, b0[rest[0].id := RetOf(a, b0, t.id)], rest);
      assert rest[|rest| - 1] == ts[|ts| - 1];
    }
  }

  lemma BeforeBefore(xs: seq<FiberId>, ys: seq<FiberId>, w: Nested)
    ensures Before(xs, Before(ys, w)) == Before(xs + ys, w)
  {
    assert xs + (ys + w.visits) == (xs + ys) + w.visits;
  }

  /**
   * Walking a tree other than the walk's root, from its root: the walk
   * visits the tree in pre-order and climbs out of its root after `NCost`
   * steps.
   */
  lemma {:induction false} NestTree(a: Arena, rets: Rets, t: Tree, root: FiberId, fuel: nat)
    requires t.id in a && Forest(a, a[t.id].child, t.kids)
    requires NoDup([t.id] + IdsF(t.kids)) && root !in [t.id] + IdsF(t.kids)
    requires fuel >= NCost(t)
    ensures NestDown(a, rets, root, t.id, fuel)
         == Before([t.id] + IdsF(t.kids), NestUp(a, NFixTree(a, rets, t), root, t.id, fuel - NCost(t)))
    decreases t
  {
    if t.kids == [] {
      assert a[t.id].child.None?;
      assert [t.id] + IdsF(t.kids) == [t.id];
    } else {
      var k := t.kids[0].id;
      var rets1 := rets[k := Some(t.id)];
      NoDupSplit([t.id], IdsF(t.kids));
      NestForest(a, rets1, t.kids, root, fuel - 1);
      NestTreeOut(a, rets, t, root, fuel);
    }
  }

  /** Leaving a tree with kids: the last kid climbs back to the tree's root. */
  lemma NestTreeOut(a: Arena, rets: Rets, t: Tree, root: FiberId, fuel: nat)
    requires t.id in a && t.kids != [] && Forest(a, a[t.id].child, t.kids)
    requires NoDup(IdsF(t.kids)) && t.id != root && fuel >= NCost(t)
    requires NestForestOk(a, rets[t.kids[0].id := Some(t.id)], t.kids, root, fuel - 1)
    ensures NestDown(a, rets, root, t.id, fuel)
         == Before([t.id] + IdsF(t.kids), NestUp(a, NFixTree(a, rets, t), root, t.id, fuel - NCost(t)))
  {
    var rets1 := rets[t.kids[0].id := Some(t.id)];
    var b := NFixForest(a, rets1, t.kids);
    var last := t.kids[|t.kids| - 1].id;
    var g := fuel - 1 - NCostF(t.kids);
    NFixForestLast(a, rets1, t.kids);
    ForestLast(a, a[t.id].child, t.kids);
    assert NestUp(a, b, root, last, g) == NestUp(a, b, root, t.id, g - 1);
    BeforeBefore([t.id], IdsF(t.kids), NestUp(a, b, root, t.id, g - 1));
  }

  /** What walking a forest from its first root gives: its fibers in pre-order, ending at its last root. */
  ghost predicate NestForestOk(a: Arena, rets: Rets, ts: seq<Tree>, root: FiberId, fuel: nat) {
    && ts != [] && fuel >= NCostF(ts)
    && NestDown(a, rets, root, ts[0].id, fuel)
       == Before(IdsF(ts), NestUp(a, NFixForest(a, rets, ts), root, ts[|ts| - 1].id, fuel - NCostF(ts)))
  }

  lemma {:induction false} NestForest(a: Arena, rets: Rets, ts: seq<Tree>, root: FiberId, fuel: nat)
    requires ts != [] && Forest(a, Some(ts[0].id), ts)
    requires NoDup(IdsF(ts)) && root !in IdsF(ts)
    requires fuel >= NCostF(ts)
    ensures NestForestOk(a, rets, ts, root, fuel)
    decreases ts, 2
  {
    if |ts| == 1 {
      NestFirstTree(a, rets, ts, root, fuel);
      NestForestOne(a, rets, ts, root, fuel);
    } else {
      NestForestMany(a, rets, ts, root, fuel);
    }
  }

  /** The walk of a forest starts with the walk of its first tree. */
  lemma {:induction false} NestFirstTree(a: Arena, rets: Rets, ts: seq<Tree>, root: FiberId, fuel: nat)
    requires ts != [] && Forest(a, Some(ts[0].id), ts)
    requires NoDup(IdsF(ts)) && root !in IdsF(ts)
    requires fuel >= NCostF(ts)
    ensures fuel >= NCost(ts[0])
    ensures NestDown(a, rets, root, ts[0].id, fuel)
      == Before([ts[0].id] + IdsF(ts[0].kids), NestUp(a, NFixTree(a, rets, ts[0]), root, ts[0].id, fuel - NCost(ts[0])))
    ensures NoDup(IdsF(ts[1..]))
    decreases ts, 0
  {
    IdsFirst(ts);
    var t := ts[0];
    NoDupSplit([t.id] + IdsF(t.kids), IdsF(ts[1..]));
    NestTree(a, rets, t, root, fuel);
  }

  /** A forest of several trees: its first tree, then the rest. */
  lemma {:induction false} NestForestMany(a: Arena, rets: Rets, ts: seq<Tree>, root: FiberId, fuel: nat)
    requires |ts| > 1 && Forest(a, Some(ts[0].id), ts)
    requires NoDup(IdsF(ts)) && root !in IdsF(ts)
    requires fuel >= NCostF(ts)
    ensures NestForestOk(a, rets, ts, root, fuel)
    decreases ts, 1
  {
    NestFirstTree(a, rets, ts, root, fuel);
    NestForestOn(a, rets, ts, root, fuel);
  }

  /** A forest of one tree walks as that tree. */
  lemma Singleton(a: Arena, rets: Rets, ts: seq<Tree>)
    requires |ts| == 1
    ensures ts[|ts| - 1] == ts[0] && NCostF(ts) == NCost(ts[0])
    ensures NFixForest(a, rets, ts) == NFixTree(a, rets, ts[0])
    ensures IdsF(ts) == [ts[0].id] + IdsF(ts[0].kids)
  {
    assert IdsF(ts) == [ts[0].id] + IdsF(ts[0].kids) + IdsF([]);
  }

  lemma NestForestOne(a: Arena, rets: Rets, ts: seq<Tree>, root: FiberId, fuel: nat)
    requires |ts| == 1 && fuel >= NCostF(ts)
    requires NestDown(a, rets, root, ts[0].id, fuel)
      == Before([ts[0].id] + IdsF(ts[0].kids), NestUp(a, NFixTree(a, rets, ts[0]), root, ts[0].id, fuel - NCost(ts[0])))
    ensures NestForestOk(a, rets, ts, root, fuel)
  {
    Singleton(a, rets, ts);
  }

  lemma {:induction false} NestForestOn(a: Arena, rets: Rets, ts: seq<Tree>, root: FiberId, fuel: nat)
    requires |ts| > 1 && Forest(a, Some(ts[0].id), ts)
    requires NoDup(IdsF(ts[1..])) && root !in IdsF(ts)
    requires fuel >= NCostF(ts)
    requires NestDown(a, rets, root, ts[0].id, fuel)
      == Before([ts[0].id] + IdsF(ts[0].kids), NestUp(a, NFixTree(a, rets, ts[0]), root, ts[0].id, fuel - NCost(ts[0])))
    ensures NestForestOk(a, rets, ts, root, fuel)
    decreases ts, 0
  {
    IdsFirst(ts);
    var b0 := NFixTree(a, rets, ts[0]);
    var rets2 := b0[ts[1].id := RetOf(a, b0, ts[0].id)];
    NestForest(a, rets2, ts[1..], root, fuel - NCost(ts[0]) - 1);
    NestForestJoin(a, rets, ts, root, fuel);
  }

  lemma NestForestJoin(a: Arena, rets: Rets, ts: seq<Tree>, root: FiberId, fuel: nat)
    requires |ts| > 1 && ts[0].id in a && a[ts[0].id].sibling == Some(ts[1].id)
    requires fuel >= NCostF(ts)
    requires NestDown(a, rets, root, ts[0].id, fuel)
      == Before([ts[0].id] + IdsF(ts[0].kids), NestUp(a, NFixTree(a, rets, ts[0]), root, ts[0].id, fuel - NCost(ts[0])))
    requires var b0 := NFixTree(a, rets, ts[0]);
             NestForestOk(a, b0[ts[1].id := RetOf(a, b0, ts[0].id)], ts[1..], root,
                          fuel - NCost(ts[0]) - 1)
    ensures NestForestOk(a, rets, ts, root, fuel)
  {
    var t := ts[0];
    var rest := ts[1..];
    var b0 := NFixTree(a, rets, t);
    var rets2 := b0[rest[0].id := RetOf(a, b0, t.id)];
    var last := ts[|ts| - 1].id;
    var f1 := fuel - NCost(t);
    var w := NestUp(a, NFixForest(a, rets2, rest), root, last, f1 - 1 - NCostF(rest));
    JoinParts(a, rets, ts, root, fuel);
    BeforeChain(NestDown(a, rets, root, t.id, fuel), NestUp(a, b0, root, t.id, f1),
                NestDown(a, rets2, root, rest[0].id, f1 - 1), w, [t.id] + IdsF(t.kids), IdsF(rest), IdsF(ts));
  }

  /** The pieces of a forest of several trees: its first tree, a sibling move, and the rest. */
  lemma JoinParts(a: Arena, rets: Rets, ts: seq<Tree>, root: FiberId, fuel: nat)
    requires |ts| > 1 && ts[0].id in a && a[ts[0].id].sibling == Some(ts[1].id)
    requires fuel >= NCostF(ts)
    ensures NCostF(ts) == NCost(ts[0]) + 1 + NCostF(ts[1..])
    ensures ts[1..][|ts[1..]| - 1].id == ts[|ts| - 1].id
    ensures var b0 := NFixTree(a, rets, ts[0]);
      var rets2 := b0[ts[1].id := RetOf(a, b0, ts[0].id)];
      && NFixForest(a, rets, ts) == NFixForest(a, rets2, ts[1..])
      && NestUp(a, b0, root, ts[0].id, fuel - NCost(ts[0])) == NestDown(a, rets2, root, ts[1].id, fuel - NCost(ts[0]) - 1)
    ensures IdsF(ts) == [ts[0].id] + IdsF(ts[0].kids) + IdsF(ts[1..])
  {
    IdsFirst(ts);
  }

  /** Two walks run one after the other visit the concatenation of their visits. */
  lemma BeforeChain(d0: Nested, u0: Nested, d1: Nested, w: Nested, xs: seq<FiberId>, ys: seq<FiberId>, zs: seq<FiberId>)
    requires d0 == Before(xs, u0) && u0 == d1 && d1 == Before(ys, w) && zs == xs + ys
    ensures d0 == Before(zs, w)
  {
    BeforeBefore(xs, ys, w);
  }

  lemma {:induction false} NCostBound(t: Tree)
    ensures NCost(t) + 1 <= 2 * Size(t)
    decreases t
  {
    if t.kids != [] {
      NCostFBound(t.kids);
    }
  }

  /** The walk of a forest takes fewer than two steps per fiber. */
  lemma {:induction false} NCostFBound(ts: seq<Tree>)
    requires ts != []
    ensures NCostF(ts) + 1 <= 2 * SizeF(ts)
    decreases ts
  {
    NCostBound(ts[0]);
    if |ts| > 1 {
      NCostFBound(ts[1..]);
    } else {
      assert SizeF(ts) == Size(ts[0]) + SizeF([]);
    }
  }

  /**
   * `commitNestedComponent` on a fiber whose subtree is a finite tree: the
   * walk ends within the budget, visits the subtree in pre-order (the
   * fiber first), and points each fiber's kids back at it.
   */
  lemma NestedPreorder(a: Arena, rets: Rets, root: FiberId, kids: seq<Tree>)
    requires root in a && Forest(a, a[root].child, kids) && NoDup([root] + IdsF(kids))
    ensures NestDown(a, rets, root, root, Budget(a)) == Nested([root] + IdsF(kids), NFixTree(a, rets, Node(root, kids)), true)
  {
    if kids == [] {
      assert a[root].child.None?;
      assert [root] + IdsF(kids) == [root];
    } else {
      NoDupSplit([root], IdsF(kids));
      ForestSizeBound(a, a[root].child, kids);
      NCostFBound(kids);
      var rets1 := rets[kids[0].id := Some(root)];
      NestForest(a, rets1, kids, root, Budget(a) - 1);
      NFixForestLast(a, rets1, kids);
      ForestLast(a, a[root].child, kids);
      var b := NFixForest(a, rets1, kids);
      var last := kids[|kids| - 1].id;
      var g := Budget(a) - 1 - NCostF(kids);
      assert NestUp(a, b, root, last, g) == Nested([], b, true);
      BeforeBefore([root], IdsF(kids), Nested([], b, true));
      assert ([root] + IdsF(kids)) + [] == [root] + IdsF(kids);
    }
  }
}

/**
 * `commitDeletion`: the walk over the deleted subtree records the host
 * nodes to remove (`recordHostChildrenToDelete`), removes them from the
 * host parent, and detaches the deleted fiber.
 */
module CommitDeletion {
  import opened JsValues
  import opened Fibers
  import opened FiberTrees
  import opened CompleteWork
  import opened AppendWalkTrees
  import opened CommitHost
  import opened NestedWalk

  /** Every fiber of a sibling chain ranks no higher than its first. */
  lemma {:induction false} ChainBelow(a: Arena, rank: map<FiberId, nat>, first: Option<FiberId>)
    requires SiblingRanked(a, rank) && OptIn(first, a)
    ensures forall x :: x in ChainOf(a, rank, first) ==> x in rank && first.Some? && rank[x] <= rank[first.value]
    decreases if first.Some? then rank[first.value] + 1 else 0
  {
    if first.Some? {
      ChainBelow(a, rank, a[first.value].sibling);
    }
  }

  /** A sibling chain never meets the same fiber twice. */
  lemma {:induction false} ChainNoDup(a: Arena, rank: map<FiberId, nat>, first: Option<FiberId>)
    requires SiblingRanked(a, rank) && OptIn(first, a)
    ensures NoDup(ChainOf(a, rank, first))
    decreases if first.Some? then rank[first.value] + 1 else 0
  {
    if first.Some? {
      var next := a[first.value].sibling;
      var rest := ChainOf(a, rank, next);
      ChainNoDup(a, rank, next);
      ChainBelow(a, rank, next);
      var c := ChainOf(a, rank, first);
      assert c == [first.value] + rest;
      forall i, j | 0 <= i < j < |c|
        ensures c[i] != c[j]
      {
        if i == 0 {
          assert c[j] == rest[j - 1];
        } else {
          assert c[i] == rest[i - 1] && c[j] == rest[j - 1];
        }
      }
    }
  }

  /**
   * `recordHostChildrenToDelete(list, u)`: the first fiber is recorded
   * unconditionally; a later one only when it is on the sibling chain after
   * the last recorded fiber.
   */
  ghost function Record(a: Arena, rank: map<FiberId, nat>, list: seq<FiberId>, u: FiberId): seq<FiberId>
    requires SiblingRanked(a, rank) && (list != [] ==> list[|list| - 1] in a)
  {
    if list == [] then [u]
    else if u in ChainOf(a, rank, a[list[|list| - 1]].sibling) then list + [u]
    else list
  }

  method RecordHostChildrenToDelete(a: Arena, ghost rank: map<FiberId, nat>, list: seq<FiberId>, u: FiberId)
    returns (l: seq<FiberId>)
    requires SiblingRanked(a, rank) && (list != [] ==> list[|list| - 1] in a)
    ensures l == Record(a, rank, list, u)
  {
    if |list| == 0 {
      return [u];
    }
    var node := a[list[|list| - 1]].sibling;
    ghost var chain := ChainOf(a, rank, node);
    ChainNoDup(a, rank, node);
    l := list;
    ghost var i := 0;
    while node.Some?
      invariant 0 <= i <= |chain| && node == (if i < |chain| then Some(chain[i]) else None)
      invariant l == if u in chain[..i] then list + [u] else list
      decreases |chain| - i
    {
      assert LinkAt(a, chain, i);
      RecordStep(chain, i, u, list, l);
      if node.value == u {
        l := l + [u];
      }
      node := a[node.value].sibling;
      i := i + 1;
    }
    assert chain[..i] == chain;
  }

  /** One step of the scan: `u` is appended when met, and a chain without repeats meets it once. */
  lemma RecordStep(chain: seq<FiberId>, i: nat, u: FiberId, list: seq<FiberId>, l: seq<FiberId>)
    requires NoDup(chain) && i < |chain| && l == (if u in chain[..i] then list + [u] else list)
    ensures (if chain[i] == u then l + [u] else l) == (if u in chain[..i + 1] then list + [u] else list)
  {
    assert chain[..i + 1] == chain[..i] + [chain[i]];
    if chain[i] == u {
      assert u !in chain[..i] by {
        forall k | 0 <= k < i
          ensures chain[..i][k] != u
        {
          assert chain[k] != chain[i];
        }
      }
    }
  }

  /** The deletion's `onCommitUnmount`: host components and host texts are recorded, other tags skipped. */
  ghost function OnUnmount(a: Arena, rank: map<FiberId, nat>, list: seq<FiberId>, u: FiberId): seq<FiberId>
    requires SiblingRanked(a, rank) && (list != [] ==> list[|list| - 1] in a)
  {
    if u in a && IsHost(a[u].tag) then Record(a, rank, list, u) else list
  }

  /** The list the deletion's callback builds over the visits `vs`. */
  ghost function Recorded(a: Arena, rank: map<FiberId, nat>, vs: seq<FiberId>): (l: seq<FiberId>)
    requires SiblingRanked(a, rank) && forall x :: x in vs ==> x in a
    ensures forall x :: x in l ==> x in vs
    decreases |vs|
  {
    if vs == [] then []
    else
      var init := Recorded(a, rank, vs[..|vs| - 1]);
      OnUnmount(a, rank, init, vs[|vs| - 1])
  }

  /** Nothing is recorded exactly when no host fiber is visited. */
  lemma {:induction false} RecordedEmpty(a: Arena, rank: map<FiberId, nat>, vs: seq<FiberId>)
    requires SiblingRanked(a, rank) && forall x :: x in vs ==> x in a
    ensures Recorded(a, rank, vs) == [] <==> forall i :: 0 <= i < |vs| ==> !IsHost(a[vs[i]].tag)
    decreases |vs|
  {
    if vs != [] {
      var init := vs[..|vs| - 1];
      RecordedEmpty(a, rank, init);
      assert forall i :: 0 <= i < |init| ==> init[i] == vs[i];
    }
  }

  /** The first fiber recorded is the first host fiber visited. */
  lemma {:induction false} RecordedFirst(a: Arena, rank: map<FiberId, nat>, vs: seq<FiberId>, k: nat)
    requires SiblingRanked(a, rank) && forall x :: x in vs ==> x in a
    requires k < |vs| && IsHost(a[vs[k]].tag) && forall j :: 0 <= j < k ==> !IsHost(a[vs[j]].tag)
    ensures Recorded(a, rank, vs) != [] && Recorded(a, rank, vs)[0] == vs[k]
    decreases |vs|
  {
    var init := vs[..|vs| - 1];
    assert forall i :: 0 <= i < |init| ==> init[i] == vs[i];
    if k < |init| {
      RecordedFirst(a, rank, init, k);
    } else {
      RecordedEmpty(a, rank, init);
    }
  }

  /**
   * Every recorded fiber is a host fiber, and each one after the first is
   * on the sibling chain after the one recorded before it.
   */
  ghost predicate SiblingRun(a: Arena, rank: map<FiberId, nat>, l: seq<FiberId>)
    requires SiblingRanked(a, rank)
  {
    && (forall i :: 0 <= i < |l| ==> l[i] in a && IsHost(a[l[i]].tag))
    && (forall i :: 0 < i < |l| ==> l[i] in ChainOf(a, rank, a[l[i - 1]].sibling))
  }

  lemma {:induction false} RecordedRun(a: Arena, rank: map<FiberId, nat>, vs: seq<FiberId>)
    requires SiblingRanked(a, rank) && forall x :: x in vs ==> x in a
    ensures SiblingRun(a, rank, Recorded(a, rank, vs))
    decreases |vs|
  {
    if vs != [] {
      var init := vs[..|vs| - 1];
      RecordedRun(a, rank, init);
    }
  }

  /**
   * A host fiber under a component that follows the first recorded host
   * is not on that host's sibling chain, so it is not recorded and its node
   * is not removed: visiting a non-host root `r`, its host child `h`, the
   * component `c` after `h` and the host child `n` of `c` records `h` only.
   */
  lemma NestedHostNotRecorded(a: Arena, rank: map<FiberId, nat>, r: FiberId, h: FiberId, c: FiberId, n: FiberId)
    requires SiblingRanked(a, rank) && r in a && h in a && c in a && n in a
    requires !IsHost(a[r].tag) && IsHost(a[h].tag) && !IsHost(a[c].tag) && IsHost(a[n].tag)
    requires a[h].sibling == Some(c) && a[c].sibling.None?
    ensures Recorded(a, rank, [r, h, c, n]) == [h]
  {
    assert [r][..0] == [];
    assert [r, h][..1] == [r];
    assert Recorded(a, rank, [r]) == [];
    assert Recorded(a, rank, [r, h]) == [h];
    assert [r, h, c][..2] == [r, h];
    assert Recorded(a, rank, [r, h, c]) == [h];
    assert [r, h, c, n][..3] == [r, h, c];
    assert ChainOf(a, rank, Some(c)) == [c];
  }

  /** The deletion's `onCommitUnmount` callback. */
  method OnCommitUnmount(a: Arena, ghost rank: map<FiberId, nat>, list: seq<FiberId>, u: FiberId) returns (l: seq<FiberId>)
    requires SiblingRanked(a, rank) && (list != [] ==> list[|list| - 1] in a) && u in a
    ensures l == OnUnmount(a, rank, list, u)
  {
    match a[u].tag
    case HostComponent =>
      l := RecordHostChildrenToDelete(a, rank, list, u);
    case HostText =>
      l := RecordHostChildrenToDelete(a, rank, list, u);
    case _ =>
      l := list;
  }

  /**
   * `commitNestedComponent(root, onCommitUnmount)` with the deletion's
   * callback: the walk and the list of host fibers it records.
   */
  method CommitNestedComponent(a: Arena, ghost rank: map<FiberId, nat>, root: FiberId) returns (w: Nested, list: seq<FiberId>)
    requires Closed(a) && SiblingRanked(a, rank) && root in a
    ensures w == NestDown(a, map[], root, root, Budget(a)) && RetsIn(a, w.rets)
    ensures (forall x :: x in w.visits ==> x in a) && list == Recorded(a, rank, w.visits)
  {
    ghost var whole := NestDown(a, map[], root, root, Budget(a));
    var rets: Rets, fuel: nat, node, visits := map[], Budget(a), root, [];
    list := [];
    assert visits + [] == visits;
    while true
      invariant RetsIn(a, rets) && node in a && (forall x :: x in visits ==> x in a)
      invariant list == Recorded(a, rank, visits)
      invariant Before(visits, NestDown(a, rets, root, node, fuel)) == whole
      decreases fuel
    {
      if fuel == 0 {
        assert visits + [] == visits;
        return Nested(visits, rets, false), list;
      }
      list := OnCommitUnmount(a, rank, list, node);
      assert (visits + [node])[..|visits|] == visits;
      if a[node].child.Some? {
        var c := a[node].child.value;
        DownChildStep(a, rets, root, node, fuel, visits, whole);
        visits := visits + [node];
        rets := rets[c := Some(node)];
        node := c;
        fuel := fuel - 1;
        continue;
      }
      if node == root {
        return Nested(visits + [node], rets, true), list;
      }
      DownLeafStep(a, rets, root, node, fuel, visits, whole);
      visits := visits + [node];
      var stop;
      node, fuel, stop := ClimbNested(a, rets, root, node, fuel - 1);
      if stop.Some? {
        assert visits + [] == visits;
        return Nested(visits, rets, stop.value), list;
      }
      UpOverStep(a, rets, root, node, fuel, visits, whole);
      var s := a[node].sibling.value;
      rets := rets[s := RetOf(a, rets, node)];
      node := s;
      fuel := fuel - 1;
    }
  }

  /**
   * The inner loop of `commitNestedComponent`: climb while there is no
   * sibling. It stops the walk (`stop` says whether it ended) or leaves
   * `node` at a fiber with a sibling and fuel to move to it.
   */
  method ClimbNested(a: Arena, rets: Rets, root: FiberId, node0: FiberId, fuel0: nat)
    returns (node: FiberId, fuel: nat, stop: Option<bool>)
    requires Closed(a) && RetsIn(a, rets) && node0 in a
    ensures stop.Some? ==> NestUp(a, rets, root, node0, fuel0) == Nested([], rets, stop.value)
    ensures stop.None? ==> node in a && a[node].sibling.Some? && 0 < fuel <= fuel0
    ensures stop.None? ==> NestUp(a, rets, root, node0, fuel0) == NestUp(a, rets, root, node, fuel)
  {
    node, fuel := node0, fuel0;
    while a[node].sibling.None?
      invariant node in a && fuel <= fuel0 && NestUp(a, rets, root, node0, fuel0) == NestUp(a, rets, root, node, fuel)
      decreases fuel
    {
      var r := RetOf(a, rets, node);
      if fuel == 0 || r.None? || r == Some(root) {
        return node, fuel, Some(fuel != 0);
      }
      node := r.value;
      fuel := fuel - 1;
    }
    if fuel == 0 {
      return node, fuel, Some(false);
    }
    return node, fuel, None;
  }

  /** `removeChild(node, parent)` for each fiber of `xs`, in order. */
  function Removes(a: Arena, parent: StateNode, xs: seq<FiberId>): (ops: seq<HostOp>)
    ensures |ops| == |xs| && forall i :: 0 <= i < |xs| ==> ops[i] == RemoveChild(StateOf(a, xs[i]), parent)
  {
    if xs == [] then [] else [RemoveChild(StateOf(a, xs[0]), parent)] + Removes(a, parent, xs[1..])
  }

  /** The fiber detached from its parent and children. */
  function Detached(a: Arena, x: FiberId): (b: Arena)
    requires x in a
    ensures b.Keys == a.Keys && b[x] == a[x].(ret := None, child := None)
    ensures forall y {:trigger b[y]} :: y in a && y != x ==> b[y] == a[y]
  {
    a[x := a[x].(ret := None, child := None)]
  }

  /**
   * The removal step of `commitDeletion`: when a host fiber was recorded,
   * look up the host parent of `x` and, if there is one, remove the
   * recorded nodes from it. `ended` is false when the lookup would not end.
   */
  function RemovalOf(a: Arena, x: FiberId, list: seq<FiberId>): Placed
    requires x in a
  {
    if list == [] then Placed([], true)
    else
      match HostParentFrom(a, a[x].ret, Budget(a))
      case Stuck => Placed([], false)
      case Found(p) => Placed(if p != NoInstance then Removes(a, p, list) else [], true)
      case Missing => Placed([], true)
  }

  method RemoveRecorded(a: Arena, x: FiberId, list: seq<FiberId>) returns (p: Placed)
    requires x in a
    ensures p == RemovalOf(a, x, list)
  {
    if |list| == 0 {
      return Placed([], true);
    }
    var parent := GetHostParent(a, x);
    match parent
    case Stuck =>
      p := Placed([], false);
    case Found(c) =>
      p := Placed(if c != NoInstance then Removes(a, c, list) else [], true);
    case Missing =>
      p := Placed([], true);
  }

  /**
   * `commitDeletion(x)`: walk the subtree (storing the `return` links
   * the walk writes), remove the recorded host nodes, then detach `x`.
   */
  ghost function DeletionOf(a: Arena, rank: map<FiberId, nat>, x: FiberId): (c: Committed)
    requires SiblingRanked(a, rank) && x in a
    ensures Repointed(a, c.fibers)
  {
    var w := NestDown(a, map[], x, x, Budget(a));
    var b := WithRets(a, w.rets);
    NestDownIn(a, map[], x, x, Budget(a));
    var p := RemovalOf(b, x, Recorded(a, rank, w.visits));
    if !w.ended || !p.ended then Committed(Diverges, b, [])
    else Committed(Normal, Detached(b, x), p.ops)
  }

  /** `DeletionOf` in terms of the walk and the removal step. */
  lemma DeletionSteps(a: Arena, rank: map<FiberId, nat>, x: FiberId, w: Nested, list: seq<FiberId>, p: Placed)
    requires SiblingRanked(a, rank) && x in a
    requires w == NestDown(a, map[], x, x, Budget(a)) && (forall y :: y in w.visits ==> y in a)
    requires list == Recorded(a, rank, w.visits) && p == RemovalOf(WithRets(a, w.rets), x, list)
    ensures DeletionOf(a, rank, x)
         == if !w.ended || !p.ended then Committed(Diverges, WithRets(a, w.rets), [])
            else Committed(Normal, Detached(WithRets(a, w.rets), x), p.ops)
  {
  }

  /**
   * `commitDeletion(x)` on the arena: the walk's `return` links are
   * stored, the recorded host nodes removed, and `x` detached.
   */
  method CommitDeletion(a: Arena, ghost rank: map<FiberId, nat>, x: FiberId) returns (c: Committed)
    requires SiblingRanked(a, rank) && Closed(a) && x in a
    ensures c == DeletionOf(a, rank, x) && Relinked(a, c.fibers)
  {
    var w, list := CommitNestedComponent(a, rank, x);
    var b := WithRets(a, w.rets);
    WithRetsRelinked(a, w.rets);
    var p := Placed([], false);
    if w.ended {
      p := RemoveRecorded(b, x, list);
    }
    DeletionSteps(a, rank, x, w, list, if w.ended then p else RemovalOf(b, x, list));
    if w.ended && p.ended {
      return Committed(Normal, Detached(b, x), p.ops);
    }
    return Committed(Diverges, b, []);
  }

  /**
   * Deleting a fiber whose subtree is a finite tree: the walk visits the
   * subtree in pre-order, so the nodes removed are those `Recorded` over
   * that order, each removed from the host parent; unless the host parent
   * lookup would not end, the fiber is then detached.
   */
  lemma DeletionTree(a: Arena, rank: map<FiberId, nat>, x: FiberId, kids: seq<Tree>)
    requires SiblingRanked(a, rank) && x in a && Forest(a, a[x].child, kids) && NoDup([x] + IdsF(kids))
    ensures forall y :: y in [x] + IdsF(kids) ==> y in a
    ensures var b := WithRets(a, NFixTree(a, map[], Node(x, kids)));
            var p := RemovalOf(b, x, Recorded(a, rank, [x] + IdsF(kids)));
            DeletionOf(a, rank, x)
              == if p.ended then Committed(Normal, Detached(b, x), p.ops) else Committed(Diverges, b, [])
  {
    NestedPreorder(a, map[], x, kids);
    ForestIn(a, a[x].child, kids);
  }
}

