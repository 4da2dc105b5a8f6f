/**
 * What the single-child diff decides, stated over the old sibling chain:
 * which old fiber is reused, which are recorded for deletion and in what
 * order, and what the non-tracking variant leaves alone.
 */
module ChildFiberProps {
  import opened JsValues
  import opened Fibers
  import opened Jsx
  import opened ChildFibers

  /** Position of the first fiber of `chain` with key `key`; `|chain|` when there is none. */
  function FirstWithKey(a: Arena, chain: seq<FiberId>, key: Value): (j: nat)
    requires forall x :: x in chain ==> x in a
    ensures j <= |chain|
    ensures forall i :: 0 <= i < j ==> a[chain[i]].key != key
    ensures j < |chain| ==> a[chain[j]].key == key
    decreases |chain|
  {
    if chain == [] then 0
    else if a[chain[0]].key == key then 0
    else 1 + FirstWithKey(a, chain[1..], key)
  }

  /** Position of the first `HostText` fiber of `chain`; `|chain|` when there is none. */
  function FirstText(a: Arena, chain: seq<FiberId>): (j: nat)
    requires forall x :: x in chain ==> x in a
    ensures j <= |chain|
    ensures forall i :: 0 <= i < j ==> a[chain[i]].tag != HostText
    ensures j < |chain| ==> a[chain[j]].tag == HostText
    decreases |chain|
  {
    if chain == [] then 0
    else if a[chain[0]].tag == HostText then 0
    else 1 + FirstText(a, chain[1..])
  }

  /**
   * The shape every consistent double-buffered tree has around a diff: the
   * parent is not one of its old children, and the twin of an old child is
   * neither the parent nor one of the old children.
   */
  ghost predicate Apart(a: Arena, returnFiber: FiberId, chain: seq<FiberId>)
    requires forall x :: x in chain ==> x in a
  {
    && returnFiber !in chain
    && forall x :: x in chain ==>
         a[x].alternate != Some(returnFiber) && (a[x].alternate.Some? ==> a[x].alternate.value !in chain)
  }

  /** The twin a reuse of `c` hands back. */
  function TwinOf(a: Arena, freshId: FiberId, c: FiberId): FiberId
    requires c in a
  {
    if a[c].alternate.Some? then a[c].alternate.value else freshId
  }

  /** A reused fiber: the twin of `c` as a single child of `returnFiber` with the new props. */
  ghost predicate ReusedAs(a: Arena, b: Arena, w: FiberId, c: FiberId, returnFiber: FiberId, props: Value)
    requires c in a && w in b
  {
    && b[w].index == 0 && b[w].sibling.None? && b[w].ret == Some(returnFiber)
    && b[w].pendingProps == props && b[w].flags == NoFlags && b[w].subtreeFlags == NoFlags
    && b[w].fiberType == a[c].fiberType && b[w].child == a[c].child
    && b[w].memoizedProps == a[c].memoizedProps && b[w].memoizedState == a[c].memoizedState
  }

  /** The reuse step, seen from the old chain that starts at `c`. */
  lemma ReuseStepOutcome(a: Arena, rank: map<FiberId, nat>, freshId: FiberId, track: bool, returnFiber: FiberId,
                         c: FiberId, props: Value)
    requires ScanOk(a, rank, freshId, returnFiber) && c in a
    requires Apart(a, returnFiber, ChainOf(a, rank, Some(c)))
    ensures var chain := ChainOf(a, rank, Some(c));
      var res := ReuseStep(a, rank, freshId, track, returnFiber, c, props);
      && res.1 == TwinOf(a, freshId, c)
      && ReusedAs(a, res.0, res.1, c, returnFiber, props)
      && res.0[returnFiber] == (if track then RecordDeletions(a[returnFiber], chain[1..]) else a[returnFiber])
  {
    var chain := ChainOf(a, rank, Some(c));
    ReusedRanked(a, rank, freshId, c, props, returnFiber);
    WorkInProgressFields(a, freshId, c, props);
    var (b, w) := Reused(a, freshId, c, props);
    var b2 := b[w := b[w].(ret := Some(returnFiber))];
    assert c in chain;
    assert w !in chain;
    assert ChainOf(a, rank, a[c].sibling) == chain[1..];
    assert b2[c].sibling == a[c].sibling;
    ChainStable(a, rank, b2, rank[w := 0], a[c].sibling);
    assert b2[returnFiber] == a[returnFiber];
  }

  /**
   * Position of the old fiber the element diff reuses: the first one with the
   * element's key, when its type matches too; `|chain|` when a new fiber is
   * created instead.
   */
  function ElementChoice(a: Arena, chain: seq<FiberId>, element: Value): (j: nat)
    requires forall x :: x in chain ==> x in a
    ensures j <= |chain|
    ensures j < |chain| ==> j == FirstWithKey(a, chain, Get(element, "key"))
    ensures j < |chain| ==> a[chain[j]].fiberType == Get(element, "type")
  {
    var k := FirstWithKey(a, chain, Get(element, "key"));
    if k < |chain| && a[chain[k]].fiberType == Get(element, "type") then k else |chain|
  }

  /** `chain` without its member at `j`; all of it when `j` is past the end. */
  function Without(chain: seq<FiberId>, j: nat): seq<FiberId> {
    if j < |chain| then chain[..j] + chain[j + 1..] else chain
  }

  lemma WithoutCons(c: FiberId, rest: seq<FiberId>, j: nat)
    ensures Without([c] + rest, j + 1) == [c] + Without(rest, j)
  {
    var chain := [c] + rest;
    if j < |rest| {
      assert chain[..j + 1] == [c] + rest[..j];
      assert chain[j + 2..] == rest[j + 1..];
    }
  }

  /** An old fiber with another key is passed over: the choice moves one place along. */
  lemma ChoiceCons(a: Arena, b: Arena, c: FiberId, rest: seq<FiberId>, element: Value)
    requires c in a && a[c].key != Get(element, "key")
    requires forall x :: x in rest ==> x in a && x in b && b[x] == a[x]
    ensures ElementChoice(a, [c] + rest, element) == 1 + ElementChoice(b, rest, element)
  {
    var key := Get(element, "key");
    var chain := [c] + rest;
    assert chain[1..] == rest;
    FirstWithKeySame(a, b, rest, key);
    var k := FirstWithKey(b, rest, key);
    assert FirstWithKey(a, chain, key) == 1 + k;
    if k < |rest| {
      assert chain[1 + k] == rest[k];
    }
  }

  /** The rest of an old chain, after one fiber is passed over, is still apart from the parent. */
  lemma ApartTail(a: Arena, b: Arena, returnFiber: FiberId, c: FiberId, rest: seq<FiberId>)
    requires c in a && forall x :: x in rest ==> x in a && x in b && b[x] == a[x]
    requires Apart(a, returnFiber, [c] + rest)
    ensures Apart(b, returnFiber, rest) && forall x :: x in rest ==> x != returnFiber
  {
    assert forall x :: x in rest ==> x in [c] + rest;
  }

  /**
   * Passing over the old fiber `c` (recording it when tracking) leaves the
   * rest of the chain as it was and still apart from the parent.
   */
  lemma PassOver(a: Arena, rank: map<FiberId, nat>, freshId: FiberId, track: bool, returnFiber: FiberId, c: FiberId)
    requires ScanOk(a, rank, freshId, returnFiber) && c in a && Apart(a, returnFiber, ChainOf(a, rank, Some(c)))
    ensures var a' := DeleteOne(a, track, returnFiber, c);
      var rest := ChainOf(a', rank, a[c].sibling);
      && ScanOk(a', rank, freshId, returnFiber) && OptIn(a[c].sibling, a')
      && ChainOf(a, rank, Some(c)) == [c] + rest
      && Apart(a', returnFiber, rest)
      && (forall x :: x in rest ==> x in a && x in a' && a'[x] == a[x] && x != returnFiber)
      && (a[c].sibling.Some? ==> rank[a[c].sibling.value] < rank[c])
  {
    var a' := DeleteOne(a, track, returnFiber, c);
    DeleteOneKeepsScanOk(a, rank, freshId, track, returnFiber, c, a[c].sibling);
    var rest := ChainOf(a', rank, a[c].sibling);
    assert ChainOf(a, rank, Some(c)) == [c] + rest;
    assert forall x :: x in rest ==> x in [c] + rest;
    ApartTail(a, a', returnFiber, c, rest);
  }

  /** The parent's record, carried over one passed-over old fiber `c`; `j` is the choice over the rest. */
  lemma ParentCons(a: Arena, track: bool, returnFiber: FiberId, c: FiberId, rest: seq<FiberId>, j: nat, g: Fiber)
    requires returnFiber in a
    requires var a' := DeleteOne(a, track, returnFiber, c);
      g == if track then RecordDeletions(a'[returnFiber], Without(rest, j)) else a'[returnFiber]
    ensures g == if track then RecordDeletions(a[returnFiber], Without([c] + rest, j + 1)) else a[returnFiber]
  {
    WithoutCons(c, rest, j);
    if track {
      assert DeleteOne(a, track, returnFiber, c)[returnFiber] == RecordDeletions(a[returnFiber], [c]);
      RecordDeletionsAppend(a[returnFiber], [c], Without(rest, j));
    }
  }

  lemma ElementParentCons(a: Arena, track: bool, returnFiber: FiberId, c: FiberId, rest: seq<FiberId>, element: Value,
                          g: Fiber)
    requires returnFiber in a && c in a && a[c].key != Get(element, "key")
    requires forall x :: x in rest ==> x in a && x != returnFiber
    requires var a' := DeleteOne(a, track, returnFiber, c);
      g == if track then RecordDeletions(a'[returnFiber], Without(rest, ElementChoice(a', rest, element)))
           else a'[returnFiber]
    ensures g == if track then RecordDeletions(a[returnFiber], Without([c] + rest, ElementChoice(a, [c] + rest, element)))
                 else a[returnFiber]
  {
    var a' := DeleteOne(a, track, returnFiber, c);
    ChoiceCons(a, a', c, rest, element);
    ParentCons(a, track, returnFiber, c, rest, ElementChoice(a', rest, element), g);
  }

  /**
   * The returned fiber, carried over one passed-over old fiber `c`; `j` is
   * the choice over the rest, `props` the new props of a reused fiber and
   * `created` the record of a new one.
   */
  lemma ChildCons(a: Arena, freshId: FiberId, track: bool, returnFiber: FiberId, c: FiberId, rest: seq<FiberId>,
                  j: nat, props: Value, created: Fiber, res: (Arena, FiberId))
    requires returnFiber in a && forall x :: x in rest ==> x in a && x != returnFiber
    requires res.1 in res.0
    requires var a' := DeleteOne(a, track, returnFiber, c);
      if j < |rest| then
        res.1 == TwinOf(a', freshId, rest[j]) && ReusedAs(a', res.0, res.1, rest[j], returnFiber, props)
      else
        res.1 == freshId && res.0[freshId] == created
    ensures var chain := [c] + rest;
      if j + 1 < |chain| then
        res.1 == TwinOf(a, freshId, chain[j + 1]) && ReusedAs(a, res.0, res.1, chain[j + 1], returnFiber, props)
      else
        res.1 == freshId && res.0[freshId] == created
  {
    if j < |rest| {
      assert ([c] + rest)[1 + j] == rest[j];
      assert DeleteOne(a, track, returnFiber, c)[rest[j]] == a[rest[j]];
    }
  }

  /** The element diff's parent record when the first old fiber has the element's key and type. */
  lemma ElementParentReuse(a: Arena, rank: map<FiberId, nat>, freshId: FiberId, track: bool,
                           returnFiber: FiberId, c: FiberId, element: Value)
    requires ScanOk(a, rank, freshId, returnFiber) && c in a && a[c].key == Get(element, "key")
    requires a[c].fiberType == Get(element, "type") && Apart(a, returnFiber, ChainOf(a, rank, Some(c)))
    ensures var chain := ChainOf(a, rank, Some(c));
      ElementScan(a, rank, freshId, track, returnFiber, Some(c), element).0[returnFiber]
      == if track then RecordDeletions(a[returnFiber], Without(chain, 0)) else a[returnFiber]
  {
    var chain := ChainOf(a, rank, Some(c));
    ReuseStepOutcome(a, rank, freshId, track, returnFiber, c, Get(element, "props"));
    assert chain[..0] + chain[1..] == chain[1..];
  }

  /** The element diff's parent record when the first old fiber has the element's key. */
  lemma ElementParentHere(a: Arena, rank: map<FiberId, nat>, freshId: FiberId, track: bool,
                          returnFiber: FiberId, c: FiberId, element: Value)
    requires ScanOk(a, rank, freshId, returnFiber) && c in a && a[c].key == Get(element, "key")
    requires Apart(a, returnFiber, ChainOf(a, rank, Some(c)))
    ensures var chain := ChainOf(a, rank, Some(c));
      ElementScan(a, rank, freshId, track, returnFiber, Some(c), element).0[returnFiber]
      == if track then RecordDeletions(a[returnFiber], Without(chain, ElementChoice(a, chain, element)))
         else a[returnFiber]
  {
    var chain := ChainOf(a, rank, Some(c));
    assert FirstWithKey(a, chain, Get(element, "key")) == 0;
    if a[c].fiberType == Get(element, "type") {
      ElementParentReuse(a, rank, freshId, track, returnFiber, c, element);
    }
  }

  /** The element diff's parent record, carried over an old fiber with another key. */
  lemma ElementParentSkip(a: Arena, rank: map<FiberId, nat>, freshId: FiberId, track: bool,
                          returnFiber: FiberId, c: FiberId, element: Value)
    requires ScanOk(a, rank, freshId, returnFiber) && c in a && a[c].key != Get(element, "key")
    requires Apart(a, returnFiber, ChainOf(a, rank, Some(c)))
    requires var a' := DeleteOne(a, track, returnFiber, c);
      && ScanOk(a', rank, freshId, returnFiber) && OptIn(a[c].sibling, a')
      && var rest := ChainOf(a', rank, a[c].sibling);
      ElementScan(a', rank, freshId, track, returnFiber, a[c].sibling, element).0[returnFiber]
      == if track then RecordDeletions(a'[returnFiber], Without(rest, ElementChoice(a', rest, element)))
         else a'[returnFiber]
    ensures var chain := ChainOf(a, rank, Some(c));
      ElementScan(a, rank, freshId, track, returnFiber, Some(c), element).0[returnFiber]
      == if track then RecordDeletions(a[returnFiber], Without(chain, ElementChoice(a, chain, element)))
         else a[returnFiber]
  {
    var a' := DeleteOne(a, track, returnFiber, c);
    PassOver(a, rank, freshId, track, returnFiber, c);
    ElementScanSkip(a, rank, freshId, track, returnFiber, c, element);
    ElementParentCons(a, track, returnFiber, c, ChainOf(a', rank, a[c].sibling), element,
                      ElementScan(a', rank, freshId, track, returnFiber, a[c].sibling, element).0[returnFiber]);
  }

  /**
   * The parent's record after `reconcileSingleElement`: when tracking, every
   * old fiber but the reused one is recorded for deletion, in chain order
   * (the whole chain when a new fiber is created); without tracking the
   * parent is left alone.
   */
  lemma {:induction false} ElementScanParent(a: Arena, rank: map<FiberId, nat>, freshId: FiberId, track: bool,
                                             returnFiber: FiberId, current: Option<FiberId>, element: Value)
    requires ScanOk(a, rank, freshId, returnFiber) && OptIn(current, a)
    requires Apart(a, returnFiber, ChainOf(a, rank, current))
    ensures var chain := ChainOf(a, rank, current);
      ElementScan(a, rank, freshId, track, returnFiber, current, element).0[returnFiber]
      == if track then RecordDeletions(a[returnFiber], Without(chain, ElementChoice(a, chain, element)))
         else a[returnFiber]
    decreases if current.Some? then rank[current.value] + 1 else 0
  {
    if current.Some? {
      var c := current.value;
      if a[c].key == Get(element, "key") {
        ElementParentHere(a, rank, freshId, track, returnFiber, c, element);
      } else {
        PassOver(a, rank, freshId, track, returnFiber, c);
        ElementScanParent(DeleteOne(a, track, returnFiber, c), rank, freshId, track, returnFiber, a[c].sibling, element);
        ElementParentSkip(a, rank, freshId, track, returnFiber, c, element);
      }
    }
  }

  /** What the element diff returns when the first old fiber has the element's key. */
  lemma ElementChildHere(a: Arena, rank: map<FiberId, nat>, freshId: FiberId, track: bool,
                         returnFiber: FiberId, c: FiberId, element: Value)
    requires ScanOk(a, rank, freshId, returnFiber) && c in a && a[c].key == Get(element, "key")
    requires Apart(a, returnFiber, ChainOf(a, rank, Some(c)))
    ensures var chain := ChainOf(a, rank, Some(c));
      var j := ElementChoice(a, chain, element);
      var res := ElementScan(a, rank, freshId, track, returnFiber, Some(c), element);
      if j < |chain| then
        res.1 == TwinOf(a, freshId, chain[j]) && ReusedAs(a, res.0, res.1, chain[j], returnFiber, Get(element, "props"))
      else
        res.1 == freshId && res.0[freshId] == Created(element, returnFiber)
  {
    var chain := ChainOf(a, rank, Some(c));
    assert FirstWithKey(a, chain, Get(element, "key")) == 0;
    if a[c].fiberType == Get(element, "type") {
      ReuseStepOutcome(a, rank, freshId, track, returnFiber, c, Get(element, "props"));
    }
  }

  /** What the element diff returns, carried over an old fiber with another key. */
  lemma ElementChildSkip(a: Arena, rank: map<FiberId, nat>, freshId: FiberId, track: bool,
                         returnFiber: FiberId, c: FiberId, element: Value)
    requires ScanOk(a, rank, freshId, returnFiber) && c in a && a[c].key != Get(element, "key")
    requires Apart(a, returnFiber, ChainOf(a, rank, Some(c)))
    requires var a' := DeleteOne(a, track, returnFiber, c);
      && ScanOk(a', rank, freshId, returnFiber) && OptIn(a[c].sibling, a')
      && var rest := ChainOf(a', rank, a[c].sibling);
      var j := ElementChoice(a', rest, element);
      var res := ElementScan(a', rank, freshId, track, returnFiber, a[c].sibling, element);
      if j < |rest| then
        res.1 == TwinOf(a', freshId, rest[j]) && ReusedAs(a', res.0, res.1, rest[j], returnFiber, Get(element, "props"))
      else
        res.1 == freshId && res.0[freshId] == Created(element, returnFiber)
    ensures var chain := ChainOf(a, rank, Some(c));
      var j := ElementChoice(a, chain, element);
      var res := ElementScan(a, rank, freshId, track, returnFiber, Some(c), element);
      if j < |chain| then
        res.1 == TwinOf(a, freshId, chain[j]) && ReusedAs(a, res.0, res.1, chain[j], returnFiber, Get(element, "props"))
      else
        res.1 == freshId && res.0[freshId] == Created(element, returnFiber)
  {
    var a' := DeleteOne(a, track, returnFiber, c);
    PassOver(a, rank, freshId, track, returnFiber, c);
    ElementScanSkip(a, rank, freshId, track, returnFiber, c, element);
    var rest := ChainOf(a', rank, a[c].sibling);
    ChoiceCons(a, a', c, rest, element);
    var j' := ElementChoice(a', rest, element);
    var res := ElementScan(a', rank, freshId, track, returnFiber, a[c].sibling, element);
    ChildCons(a, freshId, track, returnFiber, c, rest, j', Get(element, "props"), Created(element, returnFiber), res);
  }

  /**
   * The fiber `reconcileSingleElement` returns: the twin of the chosen old
   * fiber, reset as a single child of the parent with the element's props,
   * or a new fiber made from the element when no old fiber has both its key
   * and its type.
   */
  lemma {:induction false} ElementScanChild(a: Arena, rank: map<FiberId, nat>, freshId: FiberId, track: bool,
                                            returnFiber: FiberId, current: Option<FiberId>, element: Value)
    requires ScanOk(a, rank, freshId, returnFiber) && OptIn(current, a)
    requires Apart(a, returnFiber, ChainOf(a, rank, current))
    ensures var chain := ChainOf(a, rank, current);
      var j := ElementChoice(a, chain, element);
      var res := ElementScan(a, rank, freshId, track, returnFiber, current, element);
      if j < |chain| then
        res.1 == TwinOf(a, freshId, chain[j]) && ReusedAs(a, res.0, res.1, chain[j], returnFiber, Get(element, "props"))
      else
        res.1 == freshId && res.0[freshId] == Created(element, returnFiber)
    decreases if current.Some? then rank[current.value] + 1 else 0
  {
    if current.Some? {
      var c := current.value;
      if a[c].key == Get(element, "key") {
        ElementChildHere(a, rank, freshId, track, returnFiber, c, element);
      } else {
        PassOver(a, rank, freshId, track, returnFiber, c);
        ElementScanChild(DeleteOne(a, track, returnFiber, c), rank, freshId, track, returnFiber, a[c].sibling, element);
        ElementChildSkip(a, rank, freshId, track, returnFiber, c, element);
      }
    }
  }

  /** Passing over a fiber that is not a text fiber moves the text choice one place along. */
  lemma TextChoiceCons(a: Arena, b: Arena, c: FiberId, rest: seq<FiberId>)
    requires c in a && a[c].tag != HostText
    requires forall x :: x in rest ==> x in a && x in b && b[x] == a[x]
    ensures FirstText(a, [c] + rest) == 1 + FirstText(b, rest)
  {
    assert ([c] + rest)[1..] == rest;
    FirstTextSame(a, b, rest);
  }

  lemma TextParentCons(a: Arena, track: bool, returnFiber: FiberId, c: FiberId, rest: seq<FiberId>, g: Fiber)
    requires returnFiber in a && c in a && a[c].tag != HostText
    requires forall x :: x in rest ==> x in a && x != returnFiber
    requires var a' := DeleteOne(a, track, returnFiber, c);
      g == if track then RecordDeletions(a'[returnFiber], Without(rest, FirstText(a', rest))) else a'[returnFiber]
    ensures g == if track then RecordDeletions(a[returnFiber], Without([c] + rest, FirstText(a, [c] + rest)))
                 else a[returnFiber]
  {
    var a' := DeleteOne(a, track, returnFiber, c);
    TextChoiceCons(a, a', c, rest);
    ParentCons(a, track, returnFiber, c, rest, FirstText(a', rest), g);
  }

  lemma TextChildCons(a: Arena, freshId: FiberId, track: bool, returnFiber: FiberId, c: FiberId, rest: seq<FiberId>,
                      content: Value, res: (Arena, FiberId))
    requires returnFiber in a && c in a && a[c].tag != HostText
    requires forall x :: x in rest ==> x in a && x != returnFiber
    requires res.1 in res.0
    requires var a' := DeleteOne(a, track, returnFiber, c);
      var j := FirstText(a', rest);
      if j < |rest| then
        res.1 == TwinOf(a', freshId, rest[j]) && ReusedAs(a', res.0, res.1, rest[j], returnFiber, TextProps(content))
      else
        res.1 == freshId && res.0[freshId] == CreatedText(content, returnFiber)
    ensures var chain := [c] + rest;
      var j := FirstText(a, chain);
      if j < |chain| then
        res.1 == TwinOf(a, freshId, chain[j]) && ReusedAs(a, res.0, res.1, chain[j], returnFiber, TextProps(content))
      else
        res.1 == freshId && res.0[freshId] == CreatedText(content, returnFiber)
  {
    var a' := DeleteOne(a, track, returnFiber, c);
    TextChoiceCons(a, a', c, rest);
    ChildCons(a, freshId, track, returnFiber, c, rest, FirstText(a', rest), TextProps(content),
              CreatedText(content, returnFiber), res);
  }

  /** The text diff's parent record, carried over an old fiber that is not a text fiber. */
  lemma TextParentSkip(a: Arena, rank: map<FiberId, nat>, freshId: FiberId, track: bool,
                       returnFiber: FiberId, c: FiberId, content: Value)
    requires ScanOk(a, rank, freshId, returnFiber) && c in a && a[c].tag != HostText
    requires Apart(a, returnFiber, ChainOf(a, rank, Some(c)))
    requires var a' := DeleteOne(a, track, returnFiber, c);
      && ScanOk(a', rank, freshId, returnFiber) && OptIn(a[c].sibling, a')
      && var rest := ChainOf(a', rank, a[c].sibling);
      TextScan(a', rank, freshId, track, returnFiber, a[c].sibling, content).0[returnFiber]
      == if track then RecordDeletions(a'[returnFiber], Without(rest, FirstText(a', rest))) else a'[returnFiber]
    ensures var chain := ChainOf(a, rank, Some(c));
      TextScan(a, rank, freshId, track, returnFiber, Some(c), content).0[returnFiber]
      == if track then RecordDeletions(a[returnFiber], Without(chain, FirstText(a, chain))) else a[returnFiber]
  {
    var a' := DeleteOne(a, track, returnFiber, c);
    PassOver(a, rank, freshId, track, returnFiber, c);
    TextScanSkip(a, rank, freshId, track, returnFiber, c, content);
    TextParentCons(a, track, returnFiber, c, ChainOf(a', rank, a[c].sibling),
                   TextScan(a', rank, freshId, track, returnFiber, a[c].sibling, content).0[returnFiber]);
  }

  /**
   * The parent's record after `reconcileSingleTextNode`: when tracking, every
   * old fiber but the first text fiber is recorded for deletion, in chain
   * order (the whole chain when there is no text fiber); without tracking
   * the parent is left alone.
   */
  lemma {:induction false} TextScanParent(a: Arena, rank: map<FiberId, nat>, freshId: FiberId, track: bool,
                                          returnFiber: FiberId, current: Option<FiberId>, content: Value)
    requires ScanOk(a, rank, freshId, returnFiber) && OptIn(current, a)
    requires Apart(a, returnFiber, ChainOf(a, rank, current))
    ensures var chain := ChainOf(a, rank, current);
      TextScan(a, rank, freshId, track, returnFiber, current, content).0[returnFiber]
      == if track then RecordDeletions(a[returnFiber], Without(chain, FirstText(a, chain))) else a[returnFiber]
    decreases if current.Some? then rank[current.value] + 1 else 0
  {
    if current.Some? {
      var c := current.value;
      if a[c].tag == HostText {
        var chain := ChainOf(a, rank, current);
        assert FirstText(a, chain) == 0;
        ReuseStepOutcome(a, rank, freshId, track, returnFiber, c, TextProps(content));
        assert chain[..0] + chain[1..] == chain[1..];
      } else {
        PassOver(a, rank, freshId, track, returnFiber, c);
        TextScanParent(DeleteOne(a, track, returnFiber, c), rank, freshId, track, returnFiber, a[c].sibling, content);
        TextParentSkip(a, rank, freshId, track, returnFiber, c, content);
      }
    }
  }

  /** What the text diff returns, carried over an old fiber that is not a text fiber. */
  lemma TextChildSkip(a: Arena, rank: map<FiberId, nat>, freshId: FiberId, track: bool,
                      returnFiber: FiberId, c: FiberId, content: Value)
    requires ScanOk(a, rank, freshId, returnFiber) && c in a && a[c].tag != HostText
    requires Apart(a, returnFiber, ChainOf(a, rank, Some(c)))
    requires var a' := DeleteOne(a, track, returnFiber, c);
      && ScanOk(a', rank, freshId, returnFiber) && OptIn(a[c].sibling, a')
      && var rest := ChainOf(a', rank, a[c].sibling);
      var j := FirstText(a', rest);
      var res := TextScan(a', rank, freshId, track, returnFiber, a[c].sibling, content);
      if j < |rest| then
        res.1 == TwinOf(a', freshId, rest[j]) && ReusedAs(a', res.0, res.1, rest[j], returnFiber, TextProps(content))
      else
        res.1 == freshId && res.0[freshId] == CreatedText(content, returnFiber)
    ensures var chain := ChainOf(a, rank, Some(c));
      var j := FirstText(a, chain);
      var res := TextScan(a, rank, freshId, track, returnFiber, Some(c), content);
      if j < |chain| then
        res.1 == TwinOf(a, freshId, chain[j]) && ReusedAs(a, res.0, res.1, chain[j], returnFiber, TextProps(content))
      else
        res.1 == freshId && res.0[freshId] == CreatedText(content, returnFiber)
  {
    var a' := DeleteOne(a, track, returnFiber, c);
    PassOver(a, rank, freshId, track, returnFiber, c);
    TextScanSkip(a, rank, freshId, track, returnFiber, c, content);
    TextChildCons(a, freshId, track, returnFiber, c, ChainOf(a', rank, a[c].sibling), content,
                  TextScan(a', rank, freshId, track, returnFiber, a[c].sibling, content));
  }

  /**
   * The fiber `reconcileSingleTextNode` returns: the twin of the first old
   * text fiber, reset as a single child of the parent with the new text as
   * its props, or a new text fiber when the old chain has none.
   */
  lemma {:induction false} TextScanChild(a: Arena, rank: map<FiberId, nat>, freshId: FiberId, track: bool,
                                         returnFiber: FiberId, current: Option<FiberId>, content: Value)
    requires ScanOk(a, rank, freshId, returnFiber) && OptIn(current, a)
    requires Apart(a, returnFiber, ChainOf(a, rank, current))
    ensures var chain := ChainOf(a, rank, current);
      var j := FirstText(a, chain);
      var res := TextScan(a, rank, freshId, track, returnFiber, current, content);
      if j < |chain| then
        res.1 == TwinOf(a, freshId, chain[j]) && ReusedAs(a, res.0, res.1, chain[j], returnFiber, TextProps(content))
      else
        res.1 == freshId && res.0[freshId] == CreatedText(content, returnFiber)
    decreases if current.Some? then rank[current.value] + 1 else 0
  {
    if current.Some? {
      var c := current.value;
      if a[c].tag == HostText {
        assert FirstText(a, ChainOf(a, rank, current)) == 0;
        ReuseStepOutcome(a, rank, freshId, track, returnFiber, c, TextProps(content));
      } else {
        PassOver(a, rank, freshId, track, returnFiber, c);
        TextScanChild(DeleteOne(a, track, returnFiber, c), rank, freshId, track, returnFiber, a[c].sibling, content);
        TextChildSkip(a, rank, freshId, track, returnFiber, c, content);
      }
    }
  }

  /** The text search only looks at tags. */
  lemma {:induction false} FirstTextSame(a: Arena, b: Arena, chain: seq<FiberId>)
    requires forall x :: x in chain ==> x in a && x in b && b[x] == a[x]
    ensures FirstText(b, chain) == FirstText(a, chain)
    decreases |chain|
  {
    if chain != [] {
      FirstTextSame(a, b, chain[1..]);
    }
  }

  /**
   * The old children `reconcileChildFibers` records for deletion on the
   * parent: all but the reused one for an element or a text, and only the
   * first old child for anything else (this source does not clear the rest
   * of the old chain there).
   */
  ghost function DiffDeleted(a: Arena, chain: seq<FiberId>, newChild: Value): seq<FiberId>
    requires forall x :: x in chain ==> x in a
  {
    if IsValidElement(newChild) then Without(chain, ElementChoice(a, chain, newChild))
    else if newChild.Str? || newChild.Num? then Without(chain, FirstText(a, chain))
    else if chain == [] then [] else [chain[0]]
  }

  /** The element case of `reconcileChildFibers` on its parent: placing the new child leaves the parent alone. */
  lemma ElementDiffParent(a: Arena, rank: map<FiberId, nat>, freshId: FiberId, track: bool,
                          returnFiber: FiberId, current: Option<FiberId>, element: Value)
    requires ScanOk(a, rank, freshId, returnFiber) && OptIn(current, a) && IsValidElement(element)
    requires Apart(a, returnFiber, ChainOf(a, rank, current))
    ensures var chain := ChainOf(a, rank, current);
      var res := ChildrenScan(a, rank, freshId, track, returnFiber, current, element);
      && returnFiber in res.0
      && res.0[returnFiber] == (if track then RecordDeletions(a[returnFiber], Without(chain, ElementChoice(a, chain, element)))
                                else a[returnFiber])
  {
    ElementScanParent(a, rank, freshId, track, returnFiber, current, element);
    ElementScanChild(a, rank, freshId, track, returnFiber, current, element);
  }

  /** The text case of `reconcileChildFibers` on its parent: placing the new child leaves the parent alone. */
  lemma TextDiffParent(a: Arena, rank: map<FiberId, nat>, freshId: FiberId, track: bool,
                       returnFiber: FiberId, current: Option<FiberId>, content: Value)
    requires ScanOk(a, rank, freshId, returnFiber) && OptIn(current, a) && !IsValidElement(content)
    requires content.Str? || content.Num?
    requires Apart(a, returnFiber, ChainOf(a, rank, current))
    ensures var chain := ChainOf(a, rank, current);
      var res := ChildrenScan(a, rank, freshId, track, returnFiber, current, content);
      && returnFiber in res.0
      && res.0[returnFiber] == (if track then RecordDeletions(a[returnFiber], Without(chain, FirstText(a, chain)))
                                else a[returnFiber])
  {
    TextScanParent(a, rank, freshId, track, returnFiber, current, content);
    TextScanChild(a, rank, freshId, track, returnFiber, current, content);
  }

  /**
   * `reconcileChildFibers` on its parent: when tracking, exactly the old
   * children `DiffDeleted` names are recorded, in chain order, and
   * `ChildDeletion` is set by the first of them; without tracking the parent
   * is left alone. A new child comes back for elements, strings and numbers
   * only.
   */
  lemma ChildrenScanParent(a: Arena, rank: map<FiberId, nat>, freshId: FiberId, track: bool,
                           returnFiber: FiberId, current: Option<FiberId>, newChild: Value)
    requires ScanOk(a, rank, freshId, returnFiber) && OptIn(current, a)
    requires Apart(a, returnFiber, ChainOf(a, rank, current))
    ensures var chain := ChainOf(a, rank, current);
      var res := ChildrenScan(a, rank, freshId, track, returnFiber, current, newChild);
      && returnFiber in res.0
      && res.0[returnFiber] == (if track then RecordDeletions(a[returnFiber], DiffDeleted(a, chain, newChild))
                                else a[returnFiber])
      && (res.1.Some? <==> IsValidElement(newChild) || newChild.Str? || newChild.Num?)
  {
    var chain := ChainOf(a, rank, current);
    if IsValidElement(newChild) {
      ElementDiffParent(a, rank, freshId, track, returnFiber, current, newChild);
    } else if newChild.Str? || newChild.Num? {
      TextDiffParent(a, rank, freshId, track, returnFiber, current, newChild);
    } else if current.Some? {
      assert [chain[0]] == [current.value];
      assert DeleteOne(a, track, returnFiber, current.value)[returnFiber]
          == if track then RecordDeletions(a[returnFiber], [current.value]) else a[returnFiber];
    }
  }

  /**
   * A child the element diff creates is the element's fiber under the parent,
   * marked for placement exactly when tracking; a reused one is the chosen
   * twin, carrying the element's type and props, and gains no flag other
   * than `Placement`.
   */
  lemma ChildrenScanElementChild(a: Arena, rank: map<FiberId, nat>, freshId: FiberId, track: bool,
                                 returnFiber: FiberId, current: Option<FiberId>, element: Value)
    requires ScanOk(a, rank, freshId, returnFiber) && OptIn(current, a)
    requires Apart(a, returnFiber, ChainOf(a, rank, current))
    requires IsValidElement(element)
    ensures var chain := ChainOf(a, rank, current);
      var j := ElementChoice(a, chain, element);
      var res := ChildrenScan(a, rank, freshId, track, returnFiber, current, element);
      && res.1.Some? && res.1.value in res.0
      && (j == |chain| ==>
            res.1.value == freshId
            && res.0[freshId] == Created(element, returnFiber).(flags := if track then {Placement} else NoFlags))
      && (j < |chain| ==>
            res.1.value == TwinOf(a, freshId, chain[j])
            && res.0[res.1.value].fiberType == Get(element, "type")
            && res.0[res.1.value].pendingProps == Get(element, "props")
            && res.0[res.1.value].ret == Some(returnFiber)
            && res.0[res.1.value].flags <= {Placement})
  {
    ElementScanChild(a, rank, freshId, track, returnFiber, current, element);
  }

  /** Key search only looks at keys. */
  lemma {:induction false} FirstWithKeySame(a: Arena, b: Arena, chain: seq<FiberId>, key: Value)
    requires forall x :: x in chain ==> x in a && x in b && b[x] == a[x]
    ensures FirstWithKey(b, chain, key) == FirstWithKey(a, chain, key)
    decreases |chain|
  {
    if chain != [] {
      FirstWithKeySame(a, b, chain[1..], key);
    }
  }
}
