/**
 * The mutation pass of the commit phase: `commitMutationEffects`, a
 * depth-first walk over the finished tree that only descends where
 * `subtreeFlags` has a mutation bit, and `commitMutationEffectsOnFiber`,
 * which handles a fiber's `Placement`, `Update` and `ChildDeletion` bits in
 * that order and clears each bit it handled.
 */
module CommitEffects {
  import opened JsValues
  import opened Fibers
  import opened FiberTrees
  import opened CompleteWork
  import opened CommitHost
  import opened NestedWalk
  import opened CommitDeletion

  /** `fiber.flags &= ~flag`. */
  function ClearFlag(a: Arena, fw: FiberId, flag: Flag): (b: Arena)
    requires fw in a
    ensures b.Keys == a.Keys && b[fw].flags == a[fw].flags - {flag}
    ensures forall id :: id in a && id != fw ==> b[id] == a[id]
  {
    a[fw := a[fw].(flags := a[fw].flags - {flag})]
  }

  /** Operations issued before a step, prepended to what the step did. */
  function After(ops: seq<HostOp>, c: Committed): Committed {
    Committed(c.outcome, c.fibers, ops + c.ops)
  }

  /** Two steps in a row: the second counts only when the first completed. */
  function Then(c1: Committed, c2: Committed): Committed {
    if c1.outcome != Normal then c1 else After(c1.ops, c2)
  }

  // ---------------------------------------------------------------------
  // What a commit step may change

  /**
   * `b` is `a` with some `return` and `child` links moved and the bits
   * `bits` cleared on `fw`; nothing else differs.
   */
  ghost predicate ClearsOnly(a: Arena, b: Arena, fw: FiberId, bits: Flags) {
    && b.Keys == a.Keys
    && forall id {:trigger b[id]} :: id in a ==>
         b[id] == a[id].(ret := b[id].ret, child := b[id].child,
                         flags := if id == fw then a[id].flags - bits else a[id].flags)
  }

  /** `b` is `a` with some `return` and `child` links moved and some flag bits cleared. */
  ghost predicate Narrowed(a: Arena, b: Arena) {
    && b.Keys == a.Keys
    && forall id {:trigger b[id]} :: id in a ==>
         b[id].flags <= a[id].flags && b[id] == a[id].(ret := b[id].ret, child := b[id].child, flags := b[id].flags)
  }

  /**
   * The step `c` taken from `a` moved links and cleared flag bits only,
   * and when it completed it cleared exactly `bits` on `fw`.
   */
  ghost predicate Cleared(a: Arena, c: Committed, fw: FiberId, bits: Flags) {
    Narrowed(a, c.fibers) && (c.outcome == Normal ==> ClearsOnly(a, c.fibers, fw, bits))
  }

  lemma ClearsOnlyThen(a: Arena, b: Arena, c: Arena, fw: FiberId, x: Flags, y: Flags)
    requires ClearsOnly(a, b, fw, x) && ClearsOnly(b, c, fw, y)
    ensures ClearsOnly(a, c, fw, x + y)
  {
    forall id | id in a
      ensures c[id] == a[id].(ret := c[id].ret, child := c[id].child,
                              flags := if id == fw then a[id].flags - (x + y) else a[id].flags)
    {
      assert b[id] == a[id].(ret := b[id].ret, child := b[id].child,
                             flags := if id == fw then a[id].flags - x else a[id].flags);
    }
  }

  lemma NarrowedThen(a: Arena, b: Arena, c: Arena)
    requires Narrowed(a, b) && Narrowed(b, c)
    ensures Narrowed(a, c)
  {
    forall id | id in a
      ensures c[id].flags <= a[id].flags
      ensures c[id] == a[id].(ret := c[id].ret, child := c[id].child, flags := c[id].flags)
    {
      assert b[id] == a[id].(ret := b[id].ret, child := b[id].child, flags := b[id].flags);
    }
  }

  /** Neither moving `return`/`child` links nor clearing bits changes a sibling chain. */
  lemma NarrowedRanked(a: Arena, b: Arena, rank: map<FiberId, nat>)
    requires SiblingRanked(a, rank) && Narrowed(a, b)
    ensures SiblingRanked(b, rank)
  {
    forall id | id in a
      ensures b[id].sibling == a[id].sibling
    {
      assert b[id] == a[id].(ret := b[id].ret, child := b[id].child, flags := b[id].flags);
    }
    SameSiblingsRanked(a, b, rank);
  }

  lemma RepointedNarrowed(a: Arena, b: Arena)
    requires Repointed(a, b)
    ensures Narrowed(a, b)
  {
    forall id | id in a
      ensures b[id].flags <= a[id].flags
    {
      assert b[id] == a[id].(ret := b[id].ret, child := b[id].child);
    }
  }

  /** A step that leaves the arena as it was clears a bit that was not set. */
  lemma NoBitCleared(a: Arena, c: Committed, fw: FiberId, flags: Flags, bit: Flag)
    requires c.fibers == a && bit !in flags
    ensures Cleared(a, c, fw, flags * {bit})
  {
    assert flags * {bit} == {};
  }

  /** Moving links, then clearing a set bit on `fw`, clears that bit. */
  lemma BitCleared(a: Arena, b: Arena, c: Committed, fw: FiberId, flags: Flags, bit: Flag)
    requires fw in a && Repointed(a, b) && bit in flags && c.fibers == ClearFlag(b, fw, bit)
    ensures Cleared(a, c, fw, flags * {bit})
  {
    assert flags * {bit} == {bit};
    forall id | id in a
      ensures c.fibers[id] == a[id].(ret := c.fibers[id].ret, child := c.fibers[id].child,
                                     flags := if id == fw then a[id].flags - {bit} else a[id].flags)
    {
      assert b[id] == a[id].(ret := b[id].ret, child := b[id].child);
    }
  }

  /** Two steps in a row clear what each of them clears. */
  lemma ThenCleared(a: Arena, c1: Committed, c2: Committed, fw: FiberId, x: Flags, y: Flags)
    requires Cleared(a, c1, fw, x) && Cleared(c1.fibers, c2, fw, y)
    ensures Cleared(a, Then(c1, c2), fw, x + y)
  {
    if c1.outcome == Normal {
      NarrowedThen(a, c1.fibers, c2.fibers);
      if c2.outcome == Normal {
        ClearsOnlyThen(a, c1.fibers, c2.fibers, fw, x, y);
      }
    }
  }

  /** The three branches' bits make up the mutation bits of the flags. */
  lemma MaskSplit(flags: Flags)
    ensures flags * {Placement} + (flags * {Update} + flags * {ChildDeletion}) == flags * MutationMask
  {
    forall f | f in flags * MutationMask
      ensures f in flags * {Placement} + (flags * {Update} + flags * {ChildDeletion})
    {
    }
  }

  /** Clearing the mutation bits a fiber has leaves it with no flags at all. */
  lemma MaskCleared(a: Arena, b: Arena, fw: FiberId)
    requires fw in a && ClearsOnly(a, b, fw, a[fw].flags * MutationMask)
    ensures b[fw].flags == NoFlags
  {
    assert b[fw].flags == a[fw].flags - a[fw].flags * MutationMask;
    forall f | f in a[fw].flags
      ensures f in MutationMask
    {
      match f
      case Placement =>
      case Update =>
      case ChildDeletion =>
    }
  }

  // ---------------------------------------------------------------------
  // commitMutationEffectsOnFiber

  /**
   * `deletions.forEach(commitDeletion)` from position `i`: each deletion
   * runs on the arena the previous one left; an exception or a walk that
   * would not end stops the run. The run moves `return` and `child`
   * links and changes nothing else.
   */
  ghost function DeletionsOf(a: Arena, rank: map<FiberId, nat>, ds: seq<FiberId>, i: nat): (c: Committed)
    requires SiblingRanked(a, rank) && i <= |ds|
    ensures Repointed(a, c.fibers)
    decreases |ds| - i
  {
    if i == |ds| then Committed(Normal, a, [])
    else if ds[i] !in a then Committed(Diverges, a, [])
    else
      var d := DeletionOf(a, rank, ds[i]);
      if d.outcome != Normal then d
      else
        RepointedRanked(a, d.fibers, rank);
        var rest := DeletionsOf(d.fibers, rank, ds, i + 1);
        RepointedThen(a, d.fibers, rest.fibers);
        After(d.ops, rest)
  }

  /** The `Placement` branch, for the flags read on entry. */
  ghost function PlaceStep(a: Arena, rank: map<FiberId, nat>, fw: FiberId, flags: Flags): (c: Committed)
    requires SiblingRanked(a, rank) && fw in a
    ensures Cleared(a, c, fw, flags * {Placement})
  {
    if Placement !in flags then
      NoBitCleared(a, Committed(Normal, a, []), fw, flags, Placement);
      Committed(Normal, a, [])
    else
      var p := PlacementOf(a, rank, fw);
      if p.outcome != Normal then
        RepointedNarrowed(a, p.fibers);
        p
      else
        BitCleared(a, p.fibers, Committed(Normal, ClearFlag(p.fibers, fw, Placement), p.ops), fw, flags, Placement);
        Committed(Normal, ClearFlag(p.fibers, fw, Placement), p.ops)
  }

  /** The `Update` branch: `Threw` when `commitUpdate` throws. */
  function UpdateStep(a: Arena, fw: FiberId, flags: Flags): (c: Committed)
    requires fw in a
    ensures Cleared(a, c, fw, flags * {Update})
    ensures c.outcome == Outcome.Threw <==> Update in flags && UpdateOps(a[fw]).None?
    ensures c.outcome != Outcome.Threw ==>
              c.outcome == Normal && c.ops == if Update in flags then UpdateOps(a[fw]).value else []
  {
    if Update !in flags then
      NoBitCleared(a, Committed(Normal, a, []), fw, flags, Update);
      Committed(Normal, a, [])
    else
      match UpdateOps(a[fw])
      case None =>
        RepointedNarrowed(a, a);
        Committed(Outcome.Threw, a, [])
      case Some(ops) =>
        BitCleared(a, a, Committed(Normal, ClearFlag(a, fw, Update), ops), fw, flags, Update);
        Committed(Normal, ClearFlag(a, fw, Update), ops)
  }

  /** The `ChildDeletion` branch: the recorded deletions, if any, then the bit is cleared. */
  ghost function DeleteStep(a: Arena, rank: map<FiberId, nat>, fw: FiberId, flags: Flags): (c: Committed)
    requires SiblingRanked(a, rank) && fw in a
    ensures Cleared(a, c, fw, flags * {ChildDeletion})
  {
    if ChildDeletion !in flags then
      NoBitCleared(a, Committed(Normal, a, []), fw, flags, ChildDeletion);
      Committed(Normal, a, [])
    else if a[fw].deletions.None? then
      BitCleared(a, a, Committed(Normal, ClearFlag(a, fw, ChildDeletion), []), fw, flags, ChildDeletion);
      Committed(Normal, ClearFlag(a, fw, ChildDeletion), [])
    else
      var d := DeletionsOf(a, rank, a[fw].deletions.value, 0);
      if d.outcome != Normal then
        RepointedNarrowed(a, d.fibers);
        d
      else
        BitCleared(a, d.fibers, Committed(Normal, ClearFlag(d.fibers, fw, ChildDeletion), d.ops), fw, flags, ChildDeletion);
        Committed(Normal, ClearFlag(d.fibers, fw, ChildDeletion), d.ops)
  }

  /**
   * `commitMutationEffectsOnFiber(fw)`: the flags are read once on entry;
   * placement, then update, then deletions, each on the arena the previous
   * branch left and each only when the previous one completed. A fiber
   * whose handling completes has its mutation bits cleared and no other
   * fiber's flags touched; whatever the outcome, only `return` and `child`
   * links move besides cleared bits.
   */
  ghost function OnFiberOf(a: Arena, rank: map<FiberId, nat>, fw: FiberId): (c: Committed)
    requires SiblingRanked(a, rank) && fw in a
    ensures Cleared(a, c, fw, a[fw].flags * MutationMask)
    ensures c.outcome == Normal ==> c.fibers[fw].flags == NoFlags
  {
    var flags := a[fw].flags;
    var c1 := PlaceStep(a, rank, fw, flags);
    NarrowedRanked(a, c1.fibers, rank);
    var c2 := UpdateStep(c1.fibers, fw, flags);
    NarrowedRanked(c1.fibers, c2.fibers, rank);
    var c3 := DeleteStep(c2.fibers, rank, fw, flags);
    ThenCleared(c1.fibers, c2, c3, fw, flags * {Update}, flags * {ChildDeletion});
    ThenCleared(a, c1, Then(c2, c3), fw, flags * {Placement}, flags * {Update} + flags * {ChildDeletion});
    MaskSplit(flags);
    if Then(c1, Then(c2, c3)).outcome == Normal then
      MaskCleared(a, Then(c1, Then(c2, c3)).fibers, fw);
      Then(c1, Then(c2, c3))
    else Then(c1, Then(c2, c3))
  }

  /** Three steps in a row that complete issue their operations in order. */
  lemma ThenOps(c1: Committed, c2: Committed, c3: Committed)
    requires Then(c1, Then(c2, c3)).outcome == Normal
    ensures c1.outcome == Normal && c2.outcome == Normal
    ensures var ops := Then(c1, Then(c2, c3)).ops;
            |c1.ops + c2.ops| <= |ops| && ops[..|c1.ops + c2.ops|] == c1.ops + c2.ops
            && (c3.ops == [] ==> ops == c1.ops + c2.ops)
  {
    assert Then(c1, Then(c2, c3)).ops == (c1.ops + c2.ops) + c3.ops;
  }

  /** Moving links and clearing bits leaves what `commitUpdate` issues for a fiber as it was. */
  lemma NarrowedUpdateOps(a: Arena, b: Arena, fw: FiberId)
    requires Narrowed(a, b) && fw in a
    ensures UpdateOps(b[fw]) == UpdateOps(a[fw])
  {
    assert b[fw] == a[fw].(ret := b[fw].ret, child := b[fw].child, flags := b[fw].flags);
  }

  /**
   * When a fiber's handling completes, its update branch issued the text
   * update of the fiber's record as it was on entry (placement only moves
   * links), after the placement's operations and before the deletions'.
   */
  lemma OnFiberOps(a: Arena, rank: map<FiberId, nat>, fw: FiberId)
    requires SiblingRanked(a, rank) && fw in a
    requires OnFiberOf(a, rank, fw).outcome == Normal
    ensures var flags := a[fw].flags;
            var c := OnFiberOf(a, rank, fw);
            var before := PlaceStep(a, rank, fw, flags).ops
                          + (if Update in flags && UpdateOps(a[fw]).Some? then UpdateOps(a[fw]).value else []);
            && (Update in flags ==> UpdateOps(a[fw]).Some?)
            && |before| <= |c.ops| && c.ops[..|before|] == before
            && (ChildDeletion !in flags ==> c.ops == before)
  {
    var flags := a[fw].flags;
    var c1 := PlaceStep(a, rank, fw, flags);
    NarrowedRanked(a, c1.fibers, rank);
    NarrowedUpdateOps(a, c1.fibers, fw);
    var c2 := UpdateStep(c1.fibers, fw, flags);
    NarrowedRanked(c1.fibers, c2.fibers, rank);
    ThenOps(c1, c2, DeleteStep(c2.fibers, rank, fw, flags));
  }

  // ---------------------------------------------------------------------
  // The commit steps computed on the arena

  lemma RelinkedThen(a: Arena, b: Arena, c: Arena)
    requires Relinked(a, b) && Relinked(b, c)
    ensures Relinked(a, c)
  {
  }

  /** A relinked arena of a closed one is closed and keeps its sibling ranking. */
  lemma RelinkedClosed(a: Arena, b: Arena, rank: map<FiberId, nat>)
    requires Closed(a) && SiblingRanked(a, rank) && Relinked(a, b)
    ensures Closed(b) && SiblingRanked(b, rank)
  {
    SameSiblingsRanked(a, b, rank);
  }

  lemma ClearFlagRelinked(a: Arena, fw: FiberId, flag: Flag)
    requires Closed(a) && fw in a
    ensures Relinked(a, ClearFlag(a, fw, flag))
  {
  }

  lemma UpdateStepRelinked(a: Arena, fw: FiberId, flags: Flags)
    requires Closed(a) && fw in a
    ensures Relinked(a, UpdateStep(a, fw, flags).fibers)
  {
  }

  /** The `Placement` branch. */
  method PlacementBranch(a: Arena, ghost rank: map<FiberId, nat>, fw: FiberId, flags: Flags) returns (c: Committed)
    requires SiblingRanked(a, rank) && Closed(a) && fw in a
    ensures c == PlaceStep(a, rank, fw, flags) && Relinked(a, c.fibers)
  {
    if Placement !in flags {
      return Committed(Normal, a, []);
    }
    var p := CommitPlacement(a, rank, fw);
    if p.outcome != Normal {
      return p;
    }
    RelinkedClosed(a, p.fibers, rank);
    ClearFlagRelinked(p.fibers, fw, Placement);
    RelinkedThen(a, p.fibers, ClearFlag(p.fibers, fw, Placement));
    return Committed(Normal, ClearFlag(p.fibers, fw, Placement), p.ops);
  }

  /** `deletions.forEach(commitDeletion)`, from position `i`. */
  method CommitDeletions(a: Arena, ghost rank: map<FiberId, nat>, ds: seq<FiberId>, i: nat) returns (c: Committed)
    requires SiblingRanked(a, rank) && Closed(a) && i <= |ds|
    ensures c == DeletionsOf(a, rank, ds, i) && Relinked(a, c.fibers)
    decreases |ds| - i
  {
    if i == |ds| {
      return Committed(Normal, a, []);
    }
    if ds[i] !in a {
      return Committed(Diverges, a, []);
    }
    var d := CommitDeletion.CommitDeletion(a, rank, ds[i]);
    if d.outcome != Normal {
      return d;
    }
    RelinkedClosed(a, d.fibers, rank);
    var rest := CommitDeletions(d.fibers, rank, ds, i + 1);
    RelinkedThen(a, d.fibers, rest.fibers);
    return After(d.ops, rest);
  }

  /** The `ChildDeletion` branch. */
  method DeletionBranch(a: Arena, ghost rank: map<FiberId, nat>, fw: FiberId, flags: Flags) returns (c: Committed)
    requires SiblingRanked(a, rank) && Closed(a) && fw in a
    ensures c == DeleteStep(a, rank, fw, flags) && Relinked(a, c.fibers)
  {
    if ChildDeletion !in flags {
      return Committed(Normal, a, []);
    }
    var deletions := a[fw].deletions;
    if deletions.None? {
      ClearFlagRelinked(a, fw, ChildDeletion);
      return Committed(Normal, ClearFlag(a, fw, ChildDeletion), []);
    }
    var d := CommitDeletions(a, rank, deletions.value, 0);
    if d.outcome != Normal {
      return d;
    }
    RelinkedClosed(a, d.fibers, rank);
    ClearFlagRelinked(d.fibers, fw, ChildDeletion);
    RelinkedThen(a, d.fibers, ClearFlag(d.fibers, fw, ChildDeletion));
    return Committed(Normal, ClearFlag(d.fibers, fw, ChildDeletion), d.ops);
  }

  method CommitMutationEffectsOnFiber(a: Arena, ghost rank: map<FiberId, nat>, fw: FiberId) returns (c: Committed)
    requires SiblingRanked(a, rank) && Closed(a) && fw in a
    ensures c == OnFiberOf(a, rank, fw) && Relinked(a, c.fibers)
  {
    var flags := a[fw].flags;
    var c1 := PlacementBranch(a, rank, fw, flags);
    if c1.outcome != Normal {
      return c1;
    }
    RelinkedClosed(a, c1.fibers, rank);
    var c2 := UpdateStep(c1.fibers, fw, flags);
    UpdateStepRelinked(c1.fibers, fw, flags);
    RelinkedThen(a, c1.fibers, c2.fibers);
    if c2.outcome != Normal {
      return After(c1.ops, c2);
    }
    RelinkedClosed(a, c2.fibers, rank);
    var c3 := DeletionBranch(c2.fibers, rank, fw, flags);
    RelinkedThen(a, c2.fibers, c3.fibers);
    return After(c1.ops, After(c2.ops, c3));
  }

  // ---------------------------------------------------------------------
  // commitMutationEffects

  /** The walk goes down from a fiber whose subtree has a mutation bit and that has a child. */
  predicate GoesDown(f: Fiber) {
    f.subtreeFlags * MutationMask != NoFlags && f.child.Some?
  }

  /**
   * The walk standing on `node` before deciding whether to go down: it
   * descends while `GoesDown` holds, then handles the fiber it stopped at.
   * Each move spends one unit of `fuel`; a walk that runs out of it, or
   * reaches a fiber missing from the arena, is one that would not end.
   */
  ghost function EffDown(a: Arena, rank: map<FiberId, nat>, node: FiberId, fuel: Steps): (c: Committed)
    requires SiblingRanked(a, rank)
    ensures Narrowed(a, c.fibers)
    decreases fuel, 1
  {
    if node !in a then Committed(Diverges, a, [])
    else if GoesDown(a[node]) then
      if fuel.Out? then Committed(Diverges, a, []) else EffDown(a, rank, a[node].child.value, fuel.rest)
    else EffUp(a, rank, node, fuel)
  }

  /**
   * The `up` loop standing on `node`: handle it, then go on to its
   * sibling's subtree, or climb to its parent, or stop at a fiber with no
   * parent. The links are read from the arena the handling left.
   */
  ghost function EffUp(a: Arena, rank: map<FiberId, nat>, node: FiberId, fuel: Steps): (r: Committed)
    requires SiblingRanked(a, rank) && node in a
    ensures Narrowed(a, r.fibers)
    ensures r.outcome == Normal ==> r.fibers[node].flags == NoFlags
    decreases fuel, 0
  {
    var c := OnFiberOf(a, rank, node);
    if c.outcome != Normal then c
    else
      var b := c.fibers;
      NarrowedRanked(a, b, rank);
      if b[node].sibling.Some? then
        if fuel.Out? then After(c.ops, Committed(Diverges, b, []))
        else
          var d := EffDown(b, rank, b[node].sibling.value, fuel.rest);
          NarrowedThen(a, b, d.fibers);
          After(c.ops, d)
      else if b[node].ret.None? then c
      else if fuel.Out? || b[node].ret.value !in b then After(c.ops, Committed(Diverges, b, []))
      else
        var u := EffUp(b, rank, b[node].ret.value, fuel.rest);
        NarrowedThen(a, b, u.fibers);
        After(c.ops, u)
  }

  /** `commitMutationEffects(finishedWork)`, with a budget no finite tree exhausts. */
  ghost function MutationEffectsOf(a: Arena, rank: map<FiberId, nat>, finishedWork: FiberId): Committed
    requires SiblingRanked(a, rank)
  {
    EffDown(a, rank, finishedWork, StepsOf(Budget(a)))
  }

  /** A fiber with no mutation bits is handled without any effect. */
  lemma OnFiberIdle(a: Arena, rank: map<FiberId, nat>, fw: FiberId)
    requires SiblingRanked(a, rank) && fw in a && a[fw].flags * MutationMask == NoFlags
    ensures OnFiberOf(a, rank, fw) == Committed(Normal, a, [])
  {
    IdleBits(a[fw].flags);
  }

  lemma IdleBits(flags: Flags)
    requires flags * MutationMask == NoFlags
    ensures Placement !in flags && Update !in flags && ChildDeletion !in flags
  {
    assert Placement in MutationMask && Placement !in flags * MutationMask;
    assert Update in MutationMask && Update !in flags * MutationMask;
    assert ChildDeletion in MutationMask && ChildDeletion !in flags * MutationMask;
  }

  /** No fiber of the arena carries a mutation bit. */
  ghost predicate Idle(a: Arena) {
    forall id :: id in a ==> a[id].flags * MutationMask == NoFlags
  }

  /** Over an arena with nothing to commit the walk issues nothing and changes nothing. */
  lemma {:induction false} IdleDown(a: Arena, rank: map<FiberId, nat>, node: FiberId, fuel: Steps)
    requires SiblingRanked(a, rank) && Idle(a)
    ensures EffDown(a, rank, node, fuel).ops == [] && EffDown(a, rank, node, fuel).fibers == a
    decreases fuel, 1
  {
    if node in a {
      if GoesDown(a[node]) {
        if fuel.More? {
          IdleDown(a, rank, a[node].child.value, fuel.rest);
        }
      } else {
        IdleUp(a, rank, node, fuel);
      }
    }
  }

  lemma {:induction false} IdleUp(a: Arena, rank: map<FiberId, nat>, node: FiberId, fuel: Steps)
    requires SiblingRanked(a, rank) && Idle(a) && node in a
    ensures EffUp(a, rank, node, fuel).ops == [] && EffUp(a, rank, node, fuel).fibers == a
    decreases fuel, 0
  {
    OnFiberIdle(a, rank, node);
    if fuel.More? {
      if a[node].sibling.Some? {
        IdleDown(a, rank, a[node].sibling.value, fuel.rest);
      } else if a[node].ret.Some? && a[node].ret.value in a {
        IdleUp(a, rank, a[node].ret.value, fuel.rest);
      }
    }
  }

  /** The walk from `node` on the way down. */
  method CommitDown(a: Arena, ghost rank: map<FiberId, nat>, node: FiberId, fuel: Steps) returns (c: Committed)
    requires SiblingRanked(a, rank) && Closed(a)
    ensures c == EffDown(a, rank, node, fuel) && Relinked(a, c.fibers)
    decreases fuel, 1
  {
    if node !in a {
      return Committed(Diverges, a, []);
    }
    if GoesDown(a[node]) {
      if fuel.Out? {
        return Committed(Diverges, a, []);
      }
      c := CommitDown(a, rank, a[node].child.value, fuel.rest);
    } else {
      c := CommitUp(a, rank, node, fuel);
    }
  }

  /** The `up` loop from `node`. */
  method CommitUp(a: Arena, ghost rank: map<FiberId, nat>, node: FiberId, fuel: Steps) returns (c: Committed)
    requires SiblingRanked(a, rank) && Closed(a) && node in a
    ensures c == EffUp(a, rank, node, fuel) && Relinked(a, c.fibers)
    decreases fuel, 0
  {
    var d := CommitMutationEffectsOnFiber(a, rank, node);
    if d.outcome != Normal {
      return d;
    }
    var b := d.fibers;
    RelinkedClosed(a, b, rank);
    var rest: Committed;
    if b[node].sibling.Some? {
      if fuel.Out? {
        return After(d.ops, Committed(Diverges, b, []));
      }
      rest := CommitDown(b, rank, b[node].sibling.value, fuel.rest);
    } else if b[node].ret.None? {
      return d;
    } else if fuel.Out? || b[node].ret.value !in b {
      return After(d.ops, Committed(Diverges, b, []));
    } else {
      rest := CommitUp(b, rank, b[node].ret.value, fuel.rest);
    }
    RelinkedThen(a, b, rest.fibers);
    return After(d.ops, rest);
  }

  /**
   * `commitMutationEffects(finishedWork)` on the renderer: the pass is
   * computed on the arena, which is then stored with the operations logged,
   * however the pass ended.
   */
  method CommitMutationEffects(r: Renderer, finishedWork: FiberId) returns (outcome: Outcome)
    requires r.Valid()
    modifies r
    ensures r.Valid()
    ensures var c := MutationEffectsOf(old(r.fibers), old(r.sibRank), finishedWork);
            outcome == c.outcome && r.fibers == c.fibers && r.log == old(r.log) + c.ops
    ensures r.nextFiber == old(r.nextFiber) && r.sibRank == old(r.sibRank) && r.Rest() == old(r.Rest())
  {
    ValidClosed(r);
    var c := CommitDown(r.fibers, r.sibRank, finishedWork, StepsOf(Budget(r.fibers)));
    StoreFibers(r, c.fibers);
    r.EmitAll(c.ops);
    return c.outcome;
  }
}
