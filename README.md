# mini-react reconciler, modelled in Dafny

This project models the core of a small React clone: the JSX element factory
and the reconciler that turns elements into a fiber tree, diffs it against
the previous tree, builds host instances and commits the changes to the host.

- **Fibers live in an arena.** Fibers are records in a map `fibers` owned by
  a `Renderer` object, keyed by `FiberId`. The `return`, `sibling`, `child`
  and `alternate` links are ids into that map.
- **The Renderer holds the module-level state.** It has the hook and
  update-queue arenas and the cursors that the source keeps at module level:
  `workInProgress`, `currentlyRenderingFiber`, `workInProgressHook` and the
  installed dispatcher. It also has a ghost `log` of the host operations
  issued (createInstance, appendInitialChild, insert, append, remove and text
  update).
- **Fiber roots are objects.** A `FiberRootNode` is a class whose `current`
  and `finishedWork` fields are reassigned in place.
- **Loops that mutate state are methods.** The source's loops that change
  fibers one step at a time become methods. Each method is proved equal to a
  function on the arena value (`ElementScan`, `Complete`, `Unwind`,
  `MutationEffectsOf`, `DeletionOf`, …), and the properties are proved about
  those functions.
- **Sibling chains are finite by construction.** Sibling links are only ever
  set to null, so a ghost rank on sibling chains (`SiblingRanked`) makes
  every sibling walk terminate.
- **Child/return walks carry a step budget.** These walks are the
  depth-first walks and the climbs to the root. Their budget is derived from
  the arena size. Where a finite tree (`Forest`) is present, lemmas prove
  that the budget suffices and state what the walk computes.

Modules, one per concern:

| Module | Contents |
|---|---|
| `JsValues` | JavaScript values |
| `Jsx` | `jsx.ts` |
| `Fibers` | `fiber.ts` and the renderer state |
| `FiberTrees` | finite trees, sibling chains, budgets |
| `ChildFibers`, `ChildFiberProps` | `childFibers.ts` |
| `BeginWork` | `beginWork.ts` |
| `CompleteWork`, `AppendWalkTrees`, `CompleteWorkProps` | `completeWork.ts` |
| `CommitHost`, `NestedWalk`, `CommitDeletion`, `CommitEffects` | `commitWork.ts` |
| `FiberHooks` | `fiberHooks.ts` |
| `WorkLoop` | `workLoop.ts` |
| `DeletionFindings` | the `deletions` defects listed below |

## Model

| member | source | states |
|---|---|---|
| JsValues.ReadProp | packages/react-reconciler/src/beginWork.ts:58-59 | reading a property throws exactly when the holder is null or undefined |
| JsValues.NatToStringRoundTrip | packages/react/src/jsx.ts:47 | the decimal string a numeric key is converted to reads back as the same number |
| JsValues.ToJsString | packages/react/src/jsx.ts:47 | `'' + v` throws a TypeError exactly when it meets a symbol, as the value or as an array item at any depth; a string converts to itself and a non-negative number to its decimal notation |
| Jsx.ReactElement | packages/react/src/jsx.ts:12-27 | the element is a valid element carrying exactly the given type, key, ref and props |
| Jsx.ValidElementIsTaggedObject | packages/react/src/jsx.ts:29-35 | a value is a valid element if and only if it is an object whose `$$typeof` is the element symbol |
| Jsx.SplitConfig | packages/react/src/jsx.ts:42-62 | the loop ends in a TypeError exactly when `key` holds a symbol; otherwise `key` becomes a string or null, `ref` is taken when defined, and every other config entry is copied to props unchanged |
| Jsx.Jsx | packages/react/src/jsx.ts:37-74 | throws exactly when `key` holds a symbol; otherwise the element has the config's key and ref, props without key and ref, and `children` set to the single extra argument, the array of several, or left as configured when there are none |
| Jsx.JsxDev | packages/react/src/jsx.ts:76-104 | throws exactly when `key` holds a symbol; otherwise the element has the config's key and ref, and props equal to the config minus `key` and `ref` |
| Fibers.NewFiber | packages/react-reconciler/src/fiber.ts:26-54 | a new fiber has the given tag, props and key, no links, no flags, index 0 and null state; its `deletions` is null (the corrected constructor of the first finding) |
| Fibers.CreateFiber | packages/react-reconciler/src/fiber.ts:26-54 | a constructed fiber is stored under a fresh id and nothing else in the arena changes |
| Fibers.FiberRootNode.constructor | packages/react-reconciler/src/fiber.ts:63-68 | the root records container and current fiber, has no finished work, and the host root fiber's stateNode points back to it |
| Fibers.WorkInProgressAsWritten | packages/react-reconciler/src/fiber.ts:72-99 | as written: the twin is the existing alternate or a fresh fiber, and a recycled twin keeps its old `deletions` |
| Fibers.WorkInProgress | packages/react-reconciler/src/fiber.ts:72-99 | the work-in-progress twin is the existing alternate, or a fresh id added to the arena; a recycled twin's `deletions` is reset (the correction of the second finding) |
| Fibers.WorkInProgressFields | packages/react-reconciler/src/fiber.ts:72-99 | on mount the twin copies tag, key and stateNode and the two fibers become each other's alternates; on update the twin's identity fields and links are kept; either way props, flags, type, queue, child and memoized state are reset or copied from current, `deletions` is reset (the correction of the second finding), and no other fiber changes |
| Fibers.WorkInProgressTwice | packages/react-reconciler/src/fiber.ts:76-90 | a second call on the same current fiber reuses the twin made by the first and adds no fiber |
| Fibers.WorkInProgressKeepsTwins | packages/react-reconciler/src/fiber.ts:79-84 | current and its twin point at each other after the call |
| Fibers.CreateWorkInProgress | packages/react-reconciler/src/fiber.ts:72-99 | the arena and returned id are exactly `WorkInProgress` of the old arena (with the `deletions` reset of the second finding), and the rest of the renderer is unchanged |
| Fibers.FiberFromElement | packages/react-reconciler/src/fiber.ts:101-113 | a string type gives a host component and anything else a function component, with the element's props, key and type; every other field is as a new fiber node starts (no flags, no links, no instance, no memoized values) |
| Fibers.CreateFiberFromElement | packages/react-reconciler/src/fiber.ts:101-113 | the fiber built from the element is stored under a fresh id |
| ChildFibers.RecordDeletion | packages/react-reconciler/src/childFibers.ts:12-21 | the child is appended to the list; `ChildDeletion` is set only when the list starts |
| ChildFibers.RecordDeletions | packages/react-reconciler/src/childFibers.ts:23-35 | recording several children appends all of them in order and flags only a list that starts |
| ChildFibers.RecordDeletionsAppend | packages/react-reconciler/src/childFibers.ts:30-34 | recording `xs` and then `ys` is the same as recording `xs + ys` |
| ChildFibers.DeleteChild | packages/react-reconciler/src/childFibers.ts:12-21 | a tracking diff records the child on the parent; a mounting diff changes nothing |
| ChildFibers.CollectDeletions | packages/react-reconciler/src/childFibers.ts:30-34 | the loop's parent equals the parent with the whole old sibling chain recorded |
| ChildFibers.DeleteRemainingChildren | packages/react-reconciler/src/childFibers.ts:23-35 | a tracking diff records every fiber of the chain from `currentFirstChild` in order; a mounting diff changes nothing |
| ChildFibers.Reused | packages/react-reconciler/src/childFibers.ts:161-166 | a reused fiber is the twin with the new props, index 0 and no sibling |
| ChildFibers.UseFiber | packages/react-reconciler/src/childFibers.ts:161-166 | the arena and clone id are exactly `Reused` of the old arena |
| ChildFibers.Placed | packages/react-reconciler/src/childFibers.ts:110-116 | `Placement` is added exactly when tracking and the fiber has no alternate; nothing else changes |
| ChildFibers.PlaceSingleChild | packages/react-reconciler/src/childFibers.ts:110-116 | the arena becomes `Placed` of the old one and the same fiber is returned |
| ChildFibers.ReuseOld | packages/react-reconciler/src/childFibers.ts:51-55 | reusing a matched old child gives the reuse step's arena and twin |
| ChildFibers.CreateAttached | packages/react-reconciler/src/childFibers.ts:77-80 | a new fiber made from the element, returning to the parent, is stored under a fresh id |
| ChildFibers.ElementScanSkip | packages/react-reconciler/src/childFibers.ts:67-73 | an old child with another key is recorded for deletion, and the scan continues on its sibling |
| ChildFibers.SkipToKey | packages/react-reconciler/src/childFibers.ts:44-74 | the loop stops at the first old child with the element's key, having recorded those before it, and the scan from there equals the scan from the start |
| ChildFibers.ReconcileSingleElement | packages/react-reconciler/src/childFibers.ts:38-81 | the arena and returned fiber are exactly `ElementScan` of the old arena |
| ChildFibers.TextProps | packages/react-reconciler/src/childFibers.ts:91 | the props built for a text fiber carry the content under `content` |
| ChildFibers.TextScanSkip | packages/react-reconciler/src/childFibers.ts:96-99 | a non-text old child is recorded for deletion and the scan continues on its sibling |
| ChildFibers.CreateAttachedText | packages/react-reconciler/src/childFibers.ts:103-106 | a new text fiber with the content, returning to the parent, is stored under a fresh id |
| ChildFibers.SkipToText | packages/react-reconciler/src/childFibers.ts:87-100 | the loop stops at the first old text fiber, having recorded those before it, and the scan from there equals the scan from the start |
| ChildFibers.ReconcileSingleTextNode | packages/react-reconciler/src/childFibers.ts:82-107 | the arena and returned fiber are exactly `TextScan` of the old arena |
| ChildFibers.PlaceElementChild | packages/react-reconciler/src/childFibers.ts:125-128 | the element branch is the element scan followed by placement of its fiber |
| ChildFibers.PlaceTextChild | packages/react-reconciler/src/childFibers.ts:141-145 | the text branch is the text scan followed by placement of its fiber |
| ChildFibers.ReconcileChildFibers | packages/react-reconciler/src/childFibers.ts:118-157 | the arena and child are exactly `ChildrenScan` of the old arena |
| ChildFiberProps.FirstWithKey | packages/react-reconciler/src/childFibers.ts:44-73 | the index found is that of the first old child with the key, or the end of the chain when none has it |
| ChildFiberProps.FirstText | packages/react-reconciler/src/childFibers.ts:87-100 | the index found is that of the first old text fiber, or the end of the chain when there is none |
| ChildFiberProps.ElementChoice | packages/react-reconciler/src/childFibers.ts:46-60 | an old child is reused only if it is the first with the key and also has the element's type |
| ChildFiberProps.ReuseStepOutcome | packages/react-reconciler/src/childFibers.ts:51-54 | reuse returns the old child's twin, carrying the new props and returning to the parent, and records exactly the rest of the chain |
| ChildFiberProps.ElementScanParent | packages/react-reconciler/src/childFibers.ts:38-81 | a tracking single-element diff records exactly the old children other than the reused one, in chain order, or all of them when none is reused; a mounting diff records nothing |
| ChildFiberProps.ElementScanChild | packages/react-reconciler/src/childFibers.ts:38-81 | the result is the twin of the chosen old child with the element's props and the parent as return, or a fresh fiber made from the element when none is chosen |
| ChildFiberProps.TextScanParent | packages/react-reconciler/src/childFibers.ts:82-107 | a tracking text diff records exactly the old children other than the first text fiber, in chain order |
| ChildFiberProps.TextScanChild | packages/react-reconciler/src/childFibers.ts:82-107 | the result is the twin of the first old text fiber with `{content}`, or a fresh text fiber |
| ChildFiberProps.ChildrenScanParent | packages/react-reconciler/src/childFibers.ts:118-157 | the parent records exactly the old children the diff drops, and a child comes back if and only if the description is an element, a string or a number |
| ChildFiberProps.ChildrenScanElementChild | packages/react-reconciler/src/childFibers.ts:123-128 | a new element fiber is flagged `Placement` exactly when tracking; a reused twin carries the element's type and props, points back to the parent, and gets no flag but `Placement` |
| BeginWork.ChildrenOfParent | packages/react-reconciler/src/beginWork.ts:70-80 | on mount nothing is recorded; on update exactly the twin's dropped children are recorded; `child` is the new child, present only for elements, strings and numbers |
| BeginWork.MountElementChild | packages/react-reconciler/src/beginWork.ts:76-79 | mounting an element creates its fiber under `wip` with no flags |
| BeginWork.ReconcileChildren | packages/react-reconciler/src/beginWork.ts:70-80 | the arena becomes `ChildrenOf` the old one: tracked diff against the twin's children, or an untracked mount |
| BeginWork.UpdateHostRoot | packages/react-reconciler/src/beginWork.ts:39-55 | the pending update is taken out of the queue, processed into the new memoized state, and that state is diffed as children; a root without a queue throws |
| BeginWork.UpdateHostComponent | packages/react-reconciler/src/beginWork.ts:57-62 | the children are `pendingProps.children`; null props throw and change nothing |
| BeginWork.UpdateFunctionComponent | packages/react-reconciler/src/beginWork.ts:64-68 | the render result is diffed after the hooks are mounted; throws exactly when the component does or uses a hook with no dispatcher, and then keeps the hooks it mounted and leaves the rendering fiber set |
| BeginWork.BeginWork | packages/react-reconciler/src/beginWork.ts:17-37 | a host root runs `updateHostRoot` (no queue throws; otherwise the pending update is drained, processed into the new state and that state diffed), a host component runs `updateHostComponent` (null props throw; otherwise `pendingProps.children` is diffed), a function component runs `updateFunctionComponent` (throws exactly when the render or a dispatcher-less hook does, keeping the hooks it mounted; otherwise its result is diffed after its hooks are mounted); each returns the `child` it set; text and unknown tags return null and change nothing |
| CompleteWork.MarkUpdate | packages/react-reconciler/src/completeWork.ts:12-14 | `Update` is added to the fiber's flags and nothing else changes |
| CompleteWork.ChainFlagsMembers | packages/react-reconciler/src/completeWork.ts:104-107 | a flag is in the gathered set if and only if some child carries it in its flags or subtree flags |
| CompleteWork.BubbledFlags | packages/react-reconciler/src/completeWork.ts:100-113 | after bubbling, a flag is in `wip.subtreeFlags` if and only if it was there before or some child has it in its flags or subtree flags |
| CompleteWork.BubbledLinks | packages/react-reconciler/src/completeWork.ts:109 | bubbling points every child's `return` at `wip` and changes nothing else |
| CompleteWork.GatherChildren | packages/react-reconciler/src/completeWork.ts:101-111 | the loop gathers exactly the children's return links and the union of their flags |
| CompleteWork.BubbleProperties | packages/react-reconciler/src/completeWork.ts:100-113 | the arena becomes `Bubbled` of the old one |
| CompleteWork.WalkHostChildren | packages/react-reconciler/src/completeWork.ts:69-96 | the walk loop computes exactly the budgeted `AppendWalk` |
| CompleteWork.AppendAllChildren | packages/react-reconciler/src/completeWork.ts:69-96 | the arena gets the walk's return links and the log gets its appends |
| CompleteWork.CompleteHostComponentWork | packages/react-reconciler/src/completeWork.ts:24-36 | the host-component branch equals `CompleteHostComponent` on arena, log and instance counter |
| CompleteWork.MountHostComponentWork | packages/react-reconciler/src/completeWork.ts:27-34 | the mount branch equals `MountHostComponent` |
| CompleteWork.CompleteHostTextWork | packages/react-reconciler/src/completeWork.ts:37-52 | the text branch equals `CompleteHostText` |
| CompleteWork.CompleteWork | packages/react-reconciler/src/completeWork.ts:19-67 | the arena, log and instance counter after the call equal `Complete` of the old ones |
| AppendWalkTrees.VisitTree | packages/react-reconciler/src/completeWork.ts:72-95 | walking down a finite subtree appends its topmost host fibers in document order and climbs back with the return links fixed |
| AppendWalkTrees.AppendWalkTree | packages/react-reconciler/src/completeWork.ts:69-96 | for a finite child forest the budget suffices: the walk ends and appends exactly the topmost host fibers under `wip`, in document order |
| CompleteWorkProps.BubbledCovers | packages/react-reconciler/src/completeWork.ts:100-113 | every flag any child carries ends up in `wip.subtreeFlags`, and no earlier subtree flag is lost |
| CompleteWorkProps.CompleteThrows | packages/react-reconciler/src/completeWork.ts:37-52 | completion throws if and only if a text fiber reads `content` off null props, and then nothing changes |
| CompleteWorkProps.CompleteDiverges | packages/react-reconciler/src/completeWork.ts:27-34 | only a mounting host component can run out of budget |
| CompleteWorkProps.CompleteMount | packages/react-reconciler/src/completeWork.ts:27-34 | mounting a host component over a finite subtree creates one instance and appends exactly its topmost host descendants to it, in order |
| CompleteWorkProps.CompleteTextUpdate | packages/react-reconciler/src/completeWork.ts:38-44 | an updating text fiber gains `Update` exactly when its text changed, and its other flags are unchanged; no host operation is issued |
| CompleteWorkProps.CompleteTextMount | packages/react-reconciler/src/completeWork.ts:45-50 | a mounting text fiber creates one text instance with its content and stores it |
| CompleteWorkProps.CompleteBubbles | packages/react-reconciler/src/completeWork.ts:19-67 | after a normal completion, every flag of every child is in `wip.subtreeFlags` |
| CompleteWorkProps.MountBubbles | packages/react-reconciler/src/completeWork.ts:27-35 | the mount branch also bubbles every child's flags |
| CompleteWorkProps.TextUpdateBubbles | packages/react-reconciler/src/completeWork.ts:38-51 | the text update branch also bubbles every child's flags |
| CommitHost.GetHostParent | packages/react-reconciler/src/commitWork.ts:198-215 | the climb computes exactly `HostParentFrom` with the arena's budget |
| CommitHost.HostParentNearest | packages/react-reconciler/src/commitWork.ts:198-208 | the host parent is the container of the nearest host component or host root above the fiber |
| CommitHost.HostParentNone | packages/react-reconciler/src/commitWork.ts:209-214 | with no host component or host root above, there is no host parent |
| CommitHost.GetHostSibling | packages/react-reconciler/src/commitWork.ts:217-272 | the search computes exactly `SiblingUp` with the arena's budget |
| CommitHost.SiblingUpUnplaced | packages/react-reconciler/src/commitWork.ts:252-270 | a host sibling found is a host fiber not flagged `Placement` |
| CommitHost.SiblingDownUnplaced | packages/react-reconciler/src/commitWork.ts:252-270 | the downward search likewise finds only unplaced host fibers |
| CommitHost.InsertOrAppendPlacementNodeIntoContainer | packages/react-reconciler/src/commitWork.ts:274-298 | the recursion computes exactly `Place` |
| CommitHost.PlaceChildren | packages/react-reconciler/src/commitWork.ts:288-297 | the sibling loop computes exactly `PlaceChain` over the chain |
| CommitHost.PlaceTree | packages/react-reconciler/src/commitWork.ts:274-298 | with `before` passed on (or no `before` to pass), placing a finite subtree inserts its topmost host fibers in document order before `before` |
| CommitHost.PlaceForest | packages/react-reconciler/src/commitWork.ts:288-297 | the same for a chain of finite subtrees |
| CommitHost.PlaceAsWrittenDropsBefore | packages/react-reconciler/src/commitWork.ts:290-294 | as written, a host child of a placed function component is appended at the end instead of inserted before the host sibling |
| CommitHost.PlaceTreeAsWritten | packages/react-reconciler/src/commitWork.ts:288-297 | as written, placing any finite subtree whose root is not a host fiber appends all its topmost host fibers at the end of the container, whatever `before` is |
| CommitHost.CommitPlacement | packages/react-reconciler/src/commitWork.ts:79-94 | the placement equals `PlacementOf`, which passes `before` into the recursion (the correction of the third finding), and it changes no link except `return` |
| CommitHost.PlacementTree | packages/react-reconciler/src/commitWork.ts:79-94 | with the correction of the third finding, placing a finite subtree under a found host parent inserts its topmost host fibers, in order, before an unplaced host sibling |
| CommitHost.UpdateOps | packages/react-reconciler/src/commitWork.ts:96-109 | a text fiber issues one text update with its memoized content, other tags issue nothing, and null memoized props throw |
| NestedWalk.NestTree | packages/react-reconciler/src/commitWork.ts:172-195 | the walk visits a finite subtree in preorder and climbs back with the return links fixed |
| NestedWalk.NestedPreorder | packages/react-reconciler/src/commitWork.ts:168-196 | on a finite subtree, `commitNestedComponent` visits the root and then every descendant in preorder, and ends |
| CommitDeletion.RecordHostChildrenToDelete | packages/react-reconciler/src/commitWork.ts:111-127 | the loop computes exactly `Record`: the first fiber is recorded, and a later one only if it is a later sibling of the last recorded fiber |
| CommitDeletion.RecordedEmpty | packages/react-reconciler/src/commitWork.ts:136-156 | nothing is recorded if and only if the visited fibers include no host fiber |
| CommitDeletion.RecordedFirst | packages/react-reconciler/src/commitWork.ts:115-117 | the first host fiber visited is the first recorded |
| CommitDeletion.RecordedRun | packages/react-reconciler/src/commitWork.ts:119-125 | each recorded fiber is a later sibling of the one recorded before it |
| CommitDeletion.NestedHostNotRecorded | packages/react-reconciler/src/commitWork.ts:111-127 | a host fiber nested inside a recorded host fiber is not recorded |
| CommitDeletion.OnCommitUnmount | packages/react-reconciler/src/commitWork.ts:136-154 | host fibers are recorded and other tags leave the list unchanged |
| CommitDeletion.CommitNestedComponent | packages/react-reconciler/src/commitWork.ts:168-196 | the walk and the list it records are exactly `NestDown` and `Recorded` of its visits |
| CommitDeletion.ClimbNested | packages/react-reconciler/src/commitWork.ts:186-192 | the inner climb either ends the walk, or stops at a fiber with a sibling from which the walk continues unchanged |
| CommitDeletion.Removes | packages/react-reconciler/src/commitWork.ts:159-161 | one removal from the host parent per recorded fiber, in order |
| CommitDeletion.Detached | packages/react-reconciler/src/commitWork.ts:164-165 | the deleted fiber loses its `return` and `child`, and no other fiber changes |
| CommitDeletion.RemoveRecorded | packages/react-reconciler/src/commitWork.ts:156-165 | the removals from the host parent equal `RemovalOf`; the detach of the deleted fiber is done afterwards by `CommitDeletion.CommitDeletion` |
| CommitDeletion.DeletionSteps | packages/react-reconciler/src/commitWork.ts:129-166 | a deletion is the nested walk, then the removals of what it recorded, then detaching the fiber |
| CommitDeletion.CommitDeletion | packages/react-reconciler/src/commitWork.ts:129-166 | the deletion equals `DeletionOf`, and it changes no link except `return` and the detached fiber's |
| CommitDeletion.DeletionTree | packages/react-reconciler/src/commitWork.ts:129-166 | deleting a finite subtree removes, from its host parent, the host fibers the preorder walk recorded, and detaches it |
| CommitEffects.ClearFlag | packages/react-reconciler/src/commitWork.ts:62 | exactly one flag is removed from one fiber |
| CommitEffects.PlaceStep | packages/react-reconciler/src/commitWork.ts:60-63 | the placement step clears `Placement` from the fiber and nothing else of its flags |
| CommitEffects.UpdateStep | packages/react-reconciler/src/commitWork.ts:64-67 | the update step throws exactly when `Update` is set and the text props are null; otherwise it issues the text update and clears `Update` |
| CommitEffects.DeleteStep | packages/react-reconciler/src/commitWork.ts:68-76 | the deletion step clears `ChildDeletion` and nothing else of the fiber's flags |
| CommitEffects.OnFiberOf | packages/react-reconciler/src/commitWork.ts:57-77 | the per-fiber commit clears exactly the fiber's mutation flags, leaving it with none on success |
| CommitEffects.OnFiberOps | packages/react-reconciler/src/commitWork.ts:57-77 | the ops are the placement's, then the text update, then the deletions' |
| CommitEffects.OnFiberIdle | packages/react-reconciler/src/commitWork.ts:57-77 | a fiber with no mutation flags commits nothing and is left unchanged |
| CommitEffects.PlacementBranch | packages/react-reconciler/src/commitWork.ts:60-63 | the branch equals `PlaceStep` |
| CommitEffects.CommitDeletions | packages/react-reconciler/src/commitWork.ts:69-74 | the loop over `deletions` equals `DeletionsOf` |
| CommitEffects.DeletionBranch | packages/react-reconciler/src/commitWork.ts:68-76 | the branch equals `DeleteStep` |
| CommitEffects.CommitMutationEffectsOnFiber | packages/react-reconciler/src/commitWork.ts:57-77 | the per-fiber commit equals `OnFiberOf` |
| CommitEffects.EffDown | packages/react-reconciler/src/commitWork.ts:29-41 | the downward walk changes only flags, `return` links and `child` links (a deleted fiber is detached); sibling links and all other fields are kept |
| CommitEffects.EffUp | packages/react-reconciler/src/commitWork.ts:44-52 | the upward walk likewise changes only flags, `return` links and `child` links (a deleted fiber is detached), keeping sibling links and all other fields, and a committed fiber is left with no flags |
| CommitEffects.IdleDown | packages/react-reconciler/src/commitWork.ts:26-55 | on a tree with no mutation flags the downward walk commits nothing and changes nothing |
| CommitEffects.IdleUp | packages/react-reconciler/src/commitWork.ts:44-52 | the same for the upward walk |
| CommitEffects.CommitDown | packages/react-reconciler/src/commitWork.ts:29-41 | the descent equals `EffDown` |
| CommitEffects.CommitUp | packages/react-reconciler/src/commitWork.ts:44-52 | the climb equals `EffUp` |
| CommitEffects.CommitMutationEffects | packages/react-reconciler/src/commitWork.ts:26-55 | the arena and log after the commit equal `MutationEffectsOf` |
| FiberHooks.MountWorkInProgressHook | packages/react-reconciler/src/fiberHooks.ts:84-105 | a new record is linked after the cursor and becomes the cursor; the first becomes the rendering fiber's state; with neither cursor nor fiber it throws and nothing changes |
| FiberHooks.InitialState | packages/react-reconciler/src/fiberHooks.ts:58-63 | a function initial state is called; any other value is used as is |
| FiberHooks.MountState | packages/react-reconciler/src/fiberHooks.ts:52-72 | returns the initial state and a setter bound to the rendering fiber and a new queue; the state is one `StepState` on |
| FiberHooks.UseState | packages/react-reconciler/src/fiberHooks.ts:48-50 | with no dispatcher installed the call throws and nothing changes; otherwise it is `mountState` |
| FiberHooks.DispatchSetState | packages/react-reconciler/src/fiberHooks.ts:74-80 | exactly one update made from the action is enqueued on the bound queue, and nothing else changes |
| FiberHooks.MountHooks | packages/react-reconciler/src/fiberHooks.ts:41 | the component's `useState` calls succeed if and only if a dispatcher is installed or there are none, and build `MountedState` |
| FiberHooks.MountedInOrder | packages/react-reconciler/src/fiberHooks.ts:90-103 | from a cleared cursor, the hooks of one render form a list in call order |
| FiberHooks.MountedStateInOrder | packages/react-reconciler/src/fiberHooks.ts:90-103 | the same, stated on the renderer's hook state |
| FiberHooks.MountedAfterStaleCursor | packages/react-reconciler/src/fiberHooks.ts:99-103 | with a cursor left by an earlier component, the new hooks are linked after that component's last hook |
| FiberHooks.CallComponent | packages/react-reconciler/src/fiberHooks.ts:39-41 | a non-function type throws without calling any hook; a function is called with the pending props |
| FiberHooks.BeginRender | packages/react-reconciler/src/fiberHooks.ts:27-37 | `wip` becomes the rendering fiber, its state is cleared, and the mount dispatcher is installed when it has no alternate |
| FiberHooks.RenderWithHooks | packages/react-reconciler/src/fiberHooks.ts:26-46 | the hooks the component called are mounted (also when it then throws) provided a dispatcher is installed, otherwise the state is only reset; on success the children are the component's result and the rendering fiber is cleared; a throw leaves `wip` marked as being rendered |
| WorkLoop.TopIsAbove | packages/react-reconciler/src/workLoop.ts:25-30 | the top found is reached by following `return` some number of times |
| WorkLoop.MarkUpdateFromFiberToRoot | packages/react-reconciler/src/workLoop.ts:24-36 | the climb ends exactly when the top is found, and yields the root object of a host-root top or null |
| WorkLoop.CompleteSiblings | packages/react-reconciler/src/workLoop.ts:114-115 | `completeWork` leaves every sibling link as it was, so the sibling read next is the diff's |
| WorkLoop.Unwind | packages/react-reconciler/src/workLoop.ts:111-126 | unwinding keeps every sibling link and never lowers the instance counter |
| WorkLoop.UnwindStops | packages/react-reconciler/src/workLoop.ts:115-121 | a fiber with a sibling, or a throw, ends the unwind after one completion, and the sibling is next |
| WorkLoop.UnwindClimbs | packages/react-reconciler/src/workLoop.ts:122-125 | a fiber with no sibling completes and the unwind continues at its parent, with the ops concatenated |
| WorkLoop.CompleteFrom | packages/react-reconciler/src/workLoop.ts:112-125 | the loop computes exactly `Unwind` on arena, log and instance counter, and sets `workInProgress` to its next fiber |
| WorkLoop.CompleteUnitOfWork | packages/react-reconciler/src/workLoop.ts:111-126 | the same, with the arena's budget |
| WorkLoop.PrepareFreshStack | packages/react-reconciler/src/workLoop.ts:10-14 | `workInProgress` becomes the twin of `root.current` with empty props, made by `WorkInProgress` |
| WorkLoop.Memoized | packages/react-reconciler/src/workLoop.ts:101 | only the fiber's `memoizedProps` changes, to its pending props |
| WorkLoop.PerformUnitOfWork | packages/react-reconciler/src/workLoop.ts:99-109 | after `beginWork` (text and fragments change nothing; the other tags return the `child` they set), a throw ends the unit; a non-null result has the props memoized and becomes `workInProgress`; a null result has the props memoized and the fiber unwound as `Unwind` says |
| WorkLoop.WorkLoop | packages/react-reconciler/src/workLoop.ts:93-97 | a normal exit leaves no work in progress |
| WorkLoop.CommitRoot | packages/react-reconciler/src/workLoop.ts:60-91 | finished work is cleared; without effects nothing is committed; otherwise the commit equals `MutationEffectsOf`, and `current` switches to the finished tree when it completes |
| WorkLoop.RenderPass | packages/react-reconciler/src/workLoop.ts:38-53 | after a render pass that ends, no work is in progress, including after a caught throw |
| WorkLoop.RenderRoot | packages/react-reconciler/src/workLoop.ts:38-58 | after render and commit no work is in progress and finished work is cleared; the root's alternate in the rendered arena is the finished tree, committed as `commitRoot` states: without effects nothing changes, otherwise the commit equals `MutationEffectsOf` and `current` switches to it once it completes |
| WorkLoop.ScheduleUpdateOnFiber | packages/react-reconciler/src/workLoop.ts:16-21 | no top within the budget diverges; a top that is not a host root, or a root whose `current` names no fiber, throws before anything changes; otherwise the root above is rendered and committed as `renderRoot` states |
| DeletionFindings.DeleteChildAsWritten | packages/react-reconciler/src/childFibers.ts:12-21 | as written: an unset list throws, a null list starts with the child and sets `ChildDeletion`, and a list is pushed onto |
| DeletionFindings.FirstDeletionThrows | packages/react-reconciler/src/fiber.ts:26-54 | as written, the first deletion recorded on a newly constructed fiber throws |
| DeletionFindings.RecordDeletionIsDeleteChild | packages/react-reconciler/src/childFibers.ts:12-21 | on every slot the corrected constructor can produce, the model's recording equals the source's `deleteChild` |
| DeletionFindings.FirstDeletionRecorded | packages/react-reconciler/src/childFibers.ts:15-17 | with the slot initialised to null, a new fiber's first deletion starts a list and sets `ChildDeletion` |
| DeletionFindings.StaleDeletionsHideDeletion | packages/react-reconciler/src/fiber.ts:85-90 | as written, a recycled twin keeps its old list, so the next deletion is appended to it and `ChildDeletion` stays off |
| DeletionFindings.StaleDeletionsExample | packages/react-reconciler/src/fiber.ts:85-90 | a concrete twin holding `[5]` records fiber 7 as `[5, 7]` with no flag |
| DeletionFindings.FreshDeletionsShowDeletion | packages/react-reconciler/src/fiber.ts:72-99 | with the reset, a twin's first deletion in a render starts a new list and sets `ChildDeletion` |

## Left out

- **External code is a parameter.** User components, initializer functions, `processUpdateQueue` and `enqueueUpdate` are fields of an `Env` parameter of total functions. `updateQueue.ts` is not part of this model; only the `pending` slot and the bound `dispatch` of a queue are kept.
- **The host is left out.** The host config (`react-dom`) is not part of this model. Host instances are fresh numbers, and every host call (`createInstance`, `createTextInstance`, `appendInitialChild`, `appendChildToContainer`, `insertChildToContainer`, `removeChild`, `commitTextUpdate`) is an entry in the ghost `log`, with the arguments in the order the core passes them.
- **Dev-only code is left out.** `__DEV__` warnings and `console.warn` are not modelled.
- **One branch cannot be reached.** In `reconcileSingleElement`, the branch for a matching key on a non-element (childFibers.ts:61-66) is not modelled: its only caller passes elements.
- **Walks along `child` and `return` links carry a budget.** These are the `appendAllChildren` walk, `commitNestedComponent`, `getHostParent`, `getHostSibling`, the commit walk, the unwind in `completeUnitOfWork` and the climb to the root. The budget is twice the arena size plus two, and running out is reported as `Diverges`. Lemmas show the budget suffices whenever the fibers reached form a finite tree (`Forest`). The model does not prove that every arena reached at run time is such a tree.
- **Loops that walk those links are modelled as recursion.** This applies to `commitMutationEffects`, `getHostSibling` and the unwind in `completeUnitOfWork`: the recursion follows the loop's branches and is proved equal to a function. The commit's `nextEffect` is a local value, not a module variable.
- **Some helpers build their `return` writes first.** The walks that write `return` links (`appendAllChildren`, `commitNestedComponent`, `getHostSibling`) collect those writes in a map. They store them into the arena once the walk ends, and the walk reads its own writes through that map.
- WorkLoop.WorkLoop: has no fuel in the source. Here it runs at most `fuel` units of work and returns `Diverges` after that.
- WorkLoop.WorkLoop: states no relation between the finished tree and the element description. Each unit of work is specified (`WorkLoop.PerformUnitOfWork`), but the loop's contract keeps only the invariants, since the number of units is not known in advance.
- WorkLoop.RenderPass: states only that the work in progress is cleared and the arena and log grow. The source's retry loop ends after a caught throw, as the code does, so the loop is collapsed into one pass.
- WorkLoop.RenderRoot: does not relate the rendered arena to the element description, for the same reason as `WorkLoop.WorkLoop`. It commits the partial tree left by a caught throw, as the code does.
- WorkLoop.ScheduleUpdateOnFiber: does not relate the rendered arena to the element description, for the same reason. When the top fiber is not a host root, the source passes null to `renderRoot`, which throws; the model returns `Threw` without changing anything. A root whose `current` id names no fiber of the arena, which the source's object references cannot express, also returns `Threw` unchanged, as reading a field of a missing fiber throws.
- FiberHooks.DispatchSetState: stops before the `scheduleUpdateOnFiber` call (fiberHooks.ts:81). That call re-enters the work loop while a render may be in progress; it is modelled separately as `WorkLoop.ScheduleUpdateOnFiber`.
- **The commit pass runs on arena values.** `commitMutationEffects` and the placement and deletion helpers take the arena as a value and return the new arena with the host operations. `CommitMutationEffects` stores the result once, including after a throw, when the source would have stopped part-way through its in-place writes. The model does not prove that every flagged fiber is reached.
- **Two `stateNode` cases are simplified.** A host root whose `stateNode` is not a root object is treated as having no container. A fiber with no instance is passed to host calls as `NoInstance`, where the source would pass `null`.
- **Only the mount dispatcher exists.** `mountState` is the only hook implementation in the source, so an update render that calls `useState` finds no dispatcher unless one was installed earlier. This is modelled as the source has it.
- **`useState` does not store its state.** `mountState` never writes the computed state into the hook record. This is modelled as written.
- **Numbers are integers.** Floating-point numbers are not modelled. A numeric key is converted to its decimal string.
- Jsx.SplitConfig: a function-valued `key` converts to a fixed placeholder instead of the function's source text, and an object key with its own `toString` converts to `[object Object]`; only the symbol case is exact.
- Jsx.Jsx: the same key conversion as `Jsx.SplitConfig`.
- Jsx.JsxDev: the same key conversion as `Jsx.SplitConfig`.
- **The render and commit path runs the corrected program.** The three findings below are each modelled twice, as written and corrected, and the rest of the model uses the corrected definitions. The lines that follow name each member that does so and what the code as written does instead.
- Fibers.NewFiber: initialises `deletions` to null (first finding). As written the slot is unset, so the first tracked deletion of any update throws inside `beginWork`; `renderRoot` then catches it, clears the cursor and commits the partial tree.
- Fibers.WorkInProgress: resets a recycled twin's `deletions` (second finding). As written the twin keeps its old list (`Fibers.WorkInProgressAsWritten`), so a later deletion is appended to it and `ChildDeletion` stays off.
- Fibers.WorkInProgressFields: states `deletions` reset on a recycled twin, which is the second finding's correction; the code as written keeps the old list.
- Fibers.CreateWorkInProgress: equals `Fibers.WorkInProgress`, so it carries the same reset; the code as written is `Fibers.WorkInProgressAsWritten`.
- CommitHost.CommitPlacement: passes `before` into the recursion (third finding). As written the host fibers under a placed non-host fiber are appended at the end of the container (`CommitHost.PlaceTreeAsWritten`). The difference is unobservable while no sibling link is ever set: fiber.ts:37 and childFibers.ts:164 only write null, so `getHostSibling` finds no anchor and `before` is always absent.
- CommitHost.PlacementTree: states the insert-before-sibling property of the corrected placement. As written it holds only when the placed fiber is itself a host fiber; otherwise its host fibers are appended. The difference is unobservable while no sibling link is ever set: fiber.ts:37 and childFibers.ts:164 only write null, so `getHostSibling` finds no anchor and `before` is always absent.

## Findings

| source | as written | input that shows it | evidently intended | confidence | as-written member | corrected member |
|---|---|---|---|---|---|---|
| packages/react-reconciler/src/fiber.ts:26-54 | the constructor never assigns `deletions`, and `deleteChild` starts a list only on `null`, so the first tracked deletion pushes onto `undefined` and throws | an update that drops any old child, e.g. a fresh fiber whose first `deleteChild` is on child 0 | `deletions` initialised to `null`, so the first deletion starts a list and sets `ChildDeletion` | high, not executed | DeletionFindings.FirstDeletionThrows | DeletionFindings.FirstDeletionRecorded |
| packages/react-reconciler/src/fiber.ts:85-90 | `createWorkInProgress` resets flags on a recycled twin but not its `deletions`, so a list from an earlier render stays; the next deletion is appended and `ChildDeletion` is never set, so the commit does not remove the child | a twin holding `[5]` from an earlier render deletes fiber 7: the list becomes `[5, 7]` with no `ChildDeletion` | `deletions` reset to `null` with the flags; the defect can only show once the first finding is fixed, since as written no list ever forms | high, not executed | DeletionFindings.StaleDeletionsHideDeletion | DeletionFindings.FreshDeletionsShowDeletion |
| packages/react-reconciler/src/commitWork.ts:290-294 | the recursive calls of `insertOrAppendPlacementNodeIntoContainer` pass no `before`, so the host children of a placed non-host fiber are appended at the end of the container | a function component fiber 1 with host child 2 (instance 7), placed under instance 5 before host sibling instance 9: the op is append 7, not insert 7 before 9. Latent: unobservable while no sibling link is ever set (fiber.ts:37 and childFibers.ts:164 only write null), so the program never builds this input | `before` passed to the recursive calls | medium, not executed | CommitHost.PlaceTreeAsWritten | CommitHost.PlaceTree |
