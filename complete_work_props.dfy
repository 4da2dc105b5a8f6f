/**
 * What `completeWork` promises, proved about its value-level model
 * `Complete`: a mounted host component receives its nearest host
 * descendants in document order, a text fiber is marked for update exactly
 * when its content changed, reading `content` off null props is the only
 * way it throws, and every handled tag bubbles its children's flags.
 */
module CompleteWorkProps {
  import opened JsValues
  import opened Fibers
  import opened FiberTrees
  import opened CompleteWork
  import opened AppendWalkTrees

  /** `null` or `undefined`: reading a property off it throws. */
  predicate NullProps(v: Value) {
    v.Null? || v.Undefined?
  }

  /** The sibling chain depends only on the sibling links. */
  lemma {:induction false} ChainSame(a: Arena, b: Arena, rank: map<FiberId, nat>, first: Option<FiberId>)
    requires SiblingRanked(a, rank) && SiblingRanked(b, rank) && OptIn(first, a)
    requires b.Keys == a.Keys && forall id :: id in a ==> b[id].sibling == a[id].sibling
    ensures ChainOf(a, rank, first) == ChainOf(b, rank, first)
    decreases if first.Some? then rank[first.value] + 1 else 0
  {
    if first.Some? {
      ChainSame(a, b, rank, a[first.value].sibling);
    }
  }

  /**
   * Bubbling over an arena that only added flags and moved `return`
   * links still collects every flag of the original children.
   */
  lemma BubbledCovers(a: Arena, b: Arena, rank: map<FiberId, nat>, wip: FiberId)
    requires SiblingRanked(a, rank) && wip in a && OptIn(a[wip].child, a)
    requires b.Keys == a.Keys
    requires forall id :: id in a ==>
      && b[id].sibling == a[id].sibling && b[id].child == a[id].child
      && a[id].flags <= b[id].flags && b[id].subtreeFlags == a[id].subtreeFlags
    ensures SiblingRanked(b, rank)
    ensures var b1 := Bubbled(b, rank, wip);
      && a[wip].subtreeFlags <= b1[wip].subtreeFlags
      && forall x, fl :: x in ChainOf(a, rank, a[wip].child) && (fl in a[x].flags || fl in a[x].subtreeFlags) ==>
           fl in b1[wip].subtreeFlags
  {
    SameSiblingsRanked(a, b, rank);
    ChainSame(a, b, rank, a[wip].child);
    BubbledFlags(b, rank, wip);
  }

  /** `completeWork` throws exactly when a host text fiber reads `content` off null or undefined props, and then changes nothing. */
  lemma CompleteThrows(a: Arena, rank: map<FiberId, nat>, next: nat, wip: FiberId)
    requires SiblingRanked(a, rank) && wip in a && OptIn(a[wip].child, a) && OptIn(a[wip].alternate, a)
    ensures var c := Complete(a, rank, next, wip);
      var f := a[wip];
      && (c.outcome == Outcome.Threw <==>
            f.tag == HostText && (NullProps(f.pendingProps) || (Updating(f) && NullProps(a[f.alternate.value].memoizedProps))))
      && (c.outcome == Outcome.Threw ==> c.fibers == a && c.ops == [] && c.instances == next)
  {
  }

  /** Only the walk of a mounted host component can fail to end. */
  lemma CompleteDiverges(a: Arena, rank: map<FiberId, nat>, next: nat, wip: FiberId)
    requires SiblingRanked(a, rank) && wip in a && OptIn(a[wip].child, a) && OptIn(a[wip].alternate, a)
    ensures Complete(a, rank, next, wip).outcome == Diverges ==> a[wip].tag == HostComponent && !Updating(a[wip])
  {
  }

  /**
   * Mounting a host component whose children form a finite forest: a new
   * instance is created with the fiber's type and props, receives the
   * instances of the forest's frontier in document order, and becomes the
   * fiber's `stateNode`.
   */
  lemma CompleteMount(a: Arena, rank: map<FiberId, nat>, next: nat, wip: FiberId, ts: seq<Tree>)
    requires SiblingRanked(a, rank) && wip in a && OptIn(a[wip].child, a) && OptIn(a[wip].alternate, a)
    requires a[wip].tag == HostComponent && !Updating(a[wip])
    requires Forest(a, a[wip].child, ts) && NoDup(IdsF(ts)) && wip !in IdsF(ts)
    requires ts != [] ==> a[ts[0].id].ret == Some(wip)
    ensures var c := Complete(a, rank, next, wip);
      && c.outcome == Normal && c.instances == next + 1
      && c.ops == [CreateInstance(next, a[wip].fiberType, a[wip].pendingProps)] + Appends(a, Instance(next), Frontier(a, ts))
      && c.fibers.Keys == a.Keys && c.fibers[wip].stateNode == Instance(next)
  {
    AppendWalkTree(a, wip, Instance(next), ts);
    var a1 := WithRets(a, FixForest(a, map[], ts));
    SameSiblingsRanked(a, a1, rank);
    BubbledAsKeeps(a1, rank, wip, a1[wip].(stateNode := Instance(next)));
  }

  /** Bubbling after replacing `wip` keeps the fibers, and the new record's instance and flags. */
  lemma BubbledAsKeeps(a: Arena, rank: map<FiberId, nat>, wip: FiberId, f: Fiber)
    requires SiblingRanked(a, rank) && wip in a && OptIn(a[wip].child, a)
    requires f.sibling == a[wip].sibling && f.child == a[wip].child
    ensures var b := BubbledAs(a, rank, wip, f);
      b.Keys == a.Keys && b[wip].stateNode == f.stateNode && b[wip].flags == f.flags
  {
    SameSiblingsRanked(a, a[wip := f], rank);
    BubbledLinks(a[wip := f], rank, wip);
  }

  /**
   * Updating a host text fiber: `Update` is added exactly when the
   * `content` of the current props differs from the new one, no other flag
   * changes, and nothing is created.
   */
  lemma CompleteTextUpdate(a: Arena, rank: map<FiberId, nat>, next: nat, wip: FiberId)
    requires SiblingRanked(a, rank) && wip in a && OptIn(a[wip].child, a) && OptIn(a[wip].alternate, a)
    requires a[wip].tag == HostText && Updating(a[wip])
    requires !NullProps(a[a[wip].alternate.value].memoizedProps) && !NullProps(a[wip].pendingProps)
    ensures var c := Complete(a, rank, next, wip);
      var oldText := Get(a[a[wip].alternate.value].memoizedProps, "content");
      var newText := Get(a[wip].pendingProps, "content");
      && c.outcome == Normal && c.ops == [] && c.instances == next
      && c.fibers[wip].flags == a[wip].flags + (if oldText != newText then {Update} else {})
      && c.fibers[wip].stateNode == a[wip].stateNode
  {
    var f := a[wip];
    if Get(a[f.alternate.value].memoizedProps, "content") != Get(f.pendingProps, "content") {
      BubbledAsKeeps(a, rank, wip, f.(flags := f.flags + {Update}));
    } else {
      BubbledLinks(a, rank, wip);
    }
  }

  /** Mounting a host text fiber creates a text instance with its `content` and stores it. */
  lemma CompleteTextMount(a: Arena, rank: map<FiberId, nat>, next: nat, wip: FiberId)
    requires SiblingRanked(a, rank) && wip in a && OptIn(a[wip].child, a) && OptIn(a[wip].alternate, a)
    requires a[wip].tag == HostText && !Updating(a[wip]) && !NullProps(a[wip].pendingProps)
    ensures var c := Complete(a, rank, next, wip);
      && c.outcome == Normal && c.instances == next + 1
      && c.ops == [CreateTextInstance(next, Get(a[wip].pendingProps, "content"))]
      && c.fibers[wip].stateNode == Instance(next) && c.fibers[wip].flags == a[wip].flags
  {
    BubbledAsKeeps(a, rank, wip, a[wip].(stateNode := Instance(next)));
  }

  /** The subtree flags of `wip` in `b` keep their bits and hold every bit its direct children in `a` carry. */
  ghost predicate Covers(a: Arena, rank: map<FiberId, nat>, wip: FiberId, b: Arena)
    requires SiblingRanked(a, rank) && wip in a && OptIn(a[wip].child, a)
  {
    && wip in b
    && a[wip].subtreeFlags <= b[wip].subtreeFlags
    && forall x, fl :: x in ChainOf(a, rank, a[wip].child) && (fl in a[x].flags || fl in a[x].subtreeFlags) ==>
         fl in b[wip].subtreeFlags
  }

  /** `b` has the fibers of `a` with the same links and subtree flags, and possibly more flags. */
  ghost predicate OnlyMarked(a: Arena, b: Arena) {
    && b.Keys == a.Keys
    && forall id :: id in a ==>
         && b[id].sibling == a[id].sibling && b[id].child == a[id].child
         && a[id].flags <= b[id].flags && b[id].subtreeFlags == a[id].subtreeFlags
  }

  lemma WithRetsMarked(a: Arena, rets: Rets)
    ensures OnlyMarked(a, WithRets(a, rets))
  {
  }

  lemma SetMarked(a: Arena, b: Arena, wip: FiberId, f: Fiber)
    requires OnlyMarked(a, b) && wip in a
    requires f.sibling == a[wip].sibling && f.child == a[wip].child
    requires a[wip].flags <= f.flags && f.subtreeFlags == a[wip].subtreeFlags
    ensures OnlyMarked(a, b[wip := f])
  {
  }

  lemma BubbledCoversAs(a: Arena, b: Arena, rank: map<FiberId, nat>, wip: FiberId)
    requires SiblingRanked(a, rank) && wip in a && OptIn(a[wip].child, a)
    requires OnlyMarked(a, b)
    ensures SiblingRanked(b, rank) && Covers(a, rank, wip, Bubbled(b, rank, wip))
  {
    BubbledCovers(a, b, rank, wip);
  }

  /** The same after `wip` itself gained flags or an instance. */
  lemma BubbledAsCovers(a: Arena, b: Arena, rank: map<FiberId, nat>, wip: FiberId, f: Fiber)
    requires SiblingRanked(a, rank) && wip in a && OptIn(a[wip].child, a)
    requires OnlyMarked(a, b)
    requires f.sibling == a[wip].sibling && f.child == a[wip].child
    requires a[wip].flags <= f.flags && f.subtreeFlags == a[wip].subtreeFlags
    ensures SiblingRanked(b, rank) && Covers(a, rank, wip, BubbledAs(b, rank, wip, f))
  {
    SetMarked(a, b, wip, f);
    BubbledCovers(a, b[wip := f], rank, wip);
    SameSiblingsRanked(a, b, rank);
  }

  /**
   * Every tag but a fragment bubbles: on a normal outcome the subtree flags
   * of `wip` keep their bits and gain every bit its direct children carry.
   */
  lemma CompleteBubbles(a: Arena, rank: map<FiberId, nat>, next: nat, wip: FiberId)
    requires SiblingRanked(a, rank) && wip in a && OptIn(a[wip].child, a) && OptIn(a[wip].alternate, a)
    requires a[wip].tag != Fragment && Complete(a, rank, next, wip).outcome == Normal
    ensures Covers(a, rank, wip, Complete(a, rank, next, wip).fibers)
  {
    var f := a[wip];
    if f.tag == HostComponent && !Updating(f) {
      MountBubbles(a, rank, next, wip);
    } else if f.tag == HostText && Updating(f) {
      TextUpdateBubbles(a, rank, next, wip);
    } else if f.tag == HostText {
      BubbledAsCovers(a, a, rank, wip, f.(stateNode := Instance(next)));
    } else {
      BubbledCoversAs(a, a, rank, wip);
    }
  }

  lemma MountBubbles(a: Arena, rank: map<FiberId, nat>, next: nat, wip: FiberId)
    requires SiblingRanked(a, rank) && wip in a && OptIn(a[wip].child, a)
    requires MountHostComponent(a, rank, next, wip).outcome == Normal
    ensures Covers(a, rank, wip, MountHostComponent(a, rank, next, wip).fibers)
  {
    var w := AppendWalk(a, wip, Instance(next), Budget(a));
    var a1 := WithRets(a, w.rets);
    WithRetsMarked(a, w.rets);
    BubbledAsCovers(a, a1, rank, wip, a1[wip].(stateNode := Instance(next)));
  }

  lemma TextUpdateBubbles(a: Arena, rank: map<FiberId, nat>, next: nat, wip: FiberId)
    requires SiblingRanked(a, rank) && wip in a && OptIn(a[wip].child, a) && OptIn(a[wip].alternate, a)
    requires a[wip].tag == HostText && Updating(a[wip]) && Complete(a, rank, next, wip).outcome == Normal
    ensures Covers(a, rank, wip, Complete(a, rank, next, wip).fibers)
  {
    var f := a[wip];
    var oldText := ReadProp(a[f.alternate.value].memoizedProps, "content").value;
    var newText := ReadProp(f.pendingProps, "content").value;
    if oldText != newText {
      BubbledAsCovers(a, a, rank, wip, f.(flags := f.flags + {Update}));
    } else {
      BubbledCoversAs(a, a, rank, wip);
    }
  }
}
