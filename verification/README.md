# Models of folly's concurrent containers, cancellation, fbstring and Conv

This project models the parts of folly whose correctness rests on an argument
rather than on a glance, and proves that argument.

* **`ConcurrentBSkipList`** (`BSkip*.dfy`, `Words.dfy`): nodes as arrays with
  packed tombstone words, the list as an imperative class over numbered nodes
  with insertion by promotion and splitting, the forward cursor (`Skipper`) and
  the full scan while the list changes underneath.
* **`ConcurrentSkipList`** (`Lazy*.dfy`, `Recycler.dfy`): the lazy lock-based
  skip list as a state machine with one step per atomic action of any number of
  threads, lookups that read it meanwhile, the recycler that puts off destroying
  removed nodes, and the list and the recycler together.
* **`CancellationToken`** (`Cancellation*.dfy`, `CallbackList.dfy`): the packed
  state word, registration, request and removal of callbacks as a state machine,
  the intrusive callback list, and `CancellationToken::merge` with one step per
  registered input.
* **`AtomicHashArray`, `AtomicHashMap`, `AtomicUnorderedInsertMap`**
  (`HashArray*.dfy`, `HashMap*.dfy`, `Unordered*.dfy`): the lock-free protocols as
  state machines over their atomic actions.
* **`fbstring`** (`FBString*.dfy`): the three storage categories with
  copy-on-write on an explicit heap, the 24-byte layout, and `find`.
* **`Conv`** (`Decimal.dfy`, `Conv.dfy`, `ConvPrint.dfy`): the table-driven
  integer parser and the printing of 128-bit integers.

`Options.dfy` and `Arith.dfy` hold what several of them share.

## How to read it

Where the source changes an object step by step, the model is a class (or a
method on arrays) whose `ensures` give the new contents as a function of the old
ones. Where the source is a protocol between threads, the model is a `State`, a
relation for each atomic action, and `IsRun(run)`: a sequence of states that
starts in an initial state and moves by one action of one thread at a time, in
any order. A theorem about `IsRun` holds for every interleaving, every number of
threads and every moment of every execution. Each protocol has an invariant
(`Inv`) split into named parts; every action is shown to keep every part.

Choices the source leaves to the machine are arbitrary in the models: which
thread moves next, whether an optimistic read validates, how much more `malloc`
gives than was asked for, when an `AtomicHashArray` counts as nearly full, whether
a constructor throws. Random heights and hashes are parameters.

`hide` statements at the top of a proof name the definitions that the proof does
not look into.

## What turned out not to hold as documented

* `digits_to` says that an empty range gives an appropriate error. For a signed
  type it reads the character behind the range first: an empty range in front of
  `-` or `+` is reported as an overflow (`Conv.EmptyBeforeSign`). Overflow is
  reported exactly for the values out of range if and only if the text is not
  empty or no sign follows it (`Conv.OverflowExactly`).
* `fbstring_core::setCapacity` keeps the category in the top two bits of the
  capacity word. The core can be read back exactly when the capacity is below
  2^62 (`FBStringLayout.ReadBack`); the source does not check it. A core with
  capacity 2^62 is not read back (`FBStringLayout.TooLargeToRead`).
* `reserve` promises that a capacity never shrinks. With `FBSTRING_DISABLE_SSO`
  a default-constructed string has capacity 23, and `reserve(0)` may leave it with
  0 (`FBString.ReserveMayShrink`). Whatever block sizes the allocator picks, the
  capacity is kept if and only if it is not the case that `FBSTRING_DISABLE_SSO`
  is on, the string is inline and less than 23 is asked for
  (`FBString.NeverShrinksExactly`).
* A lookup in a `ConcurrentSkipList` may find a key whose `add` has linked its node
  but not yet finished. Lookups are therefore true of the keys in the list, and
  these differ from the keys of the finished adds and removes exactly by the nodes
  not yet fully linked (`LazyLookups.AnnouncedOrNot`).

## Model

| member | source | states |
|---|---|---|
| `BSkipNodes.FindFirstGreater` | folly/ConcurrentBSkipList-detail.h:495-504 | the least index whose key exceeds the target, or the end |
| `BSkipNodes.ShiftElementsUp` | folly/ConcurrentBSkipList-detail.h:598-607 | the elements from the slot on stand one place higher and those before it are untouched |
| `BSkipNodes.LeafNode.InsertKeyAtSlot` | folly/ConcurrentBSkipList-detail.h:848-884 | keys, payloads and tombstone bits form one sequence of slots, and exactly one live slot is entered into it |
| `BSkipNodes.LeafNode.SplitKeys` | folly/ConcurrentBSkipList-detail.h:774-816 | a split moves the tail of the slot sequence, with each key keeping its payload and tombstone, behind what the other leaf holds |
| `BSkipNodes.LeafNode.SetTombstone` | folly/ConcurrentBSkipList-detail.h:823-830 | one slot dies and no other slot changes |
| `BSkipNodes.LeafNode.ClearTombstone` | folly/ConcurrentBSkipList-detail.h:831-838 | one slot is live again and no other slot changes |
| `BSkipNodes.LeafNode.Tombstoned` | folly/ConcurrentBSkipList-detail.h:818-821 | the shifted and masked word is the tombstone of the slot |
| `BSkipNodes.LeafNode.FindLeafSlot` | folly/ConcurrentBSkipList-detail.h:750-772 | exact if and only if the key is in the leaf; otherwise the slot of its predecessor |
| `BSkipNodes.InternalNode.FindChild` | folly/ConcurrentBSkipList-detail.h:941-953 | the last routing key not above the target, and whether it is equal |
| `BSkipNodes.InternalNode.InsertEntry` | folly/ConcurrentBSkipList-detail.h:972-992 | keys and children stay paired when an entry goes in |
| `BSkipNodes.InternalNode.SplitKeysAndChildren` | folly/ConcurrentBSkipList-detail.h:955-970 | both arrays are cut at the same place and moved behind the destination's entries |
| `BSkipNodes.ShiftUpperBit` | folly/ConcurrentBSkipList-detail.h:878-882 | bit j of the shifted tombstone word is the bit of the slot that moved to j |
| `BSkipNodes.MovedBit` | folly/ConcurrentBSkipList-detail.h:796-803 | bit j of the word given to the new leaf is the bit of the slot that went there, for all split points |
| `BSkipNodes.KeptBit` | folly/ConcurrentBSkipList-detail.h:804-805 | the word that stays has exactly the bits below the split point |
| `BSkipFacts.InsertMatchesStorage` | folly/ConcurrentBSkipList-detail.h:865-884 | the list's node insertion is the slot insertion of the leaf storage |
| `BSkipFacts.SplitMatchesStorage` | folly/ConcurrentBSkipList-detail.h:774-816 | the list's node split is the slot split of the leaf storage, with or without a promoted key in front |
| `BSkipFacts.SetMatchesStorage` | folly/ConcurrentBSkipList-detail.h:823-838 | the list's change of one value is the change of payload and tombstone of one slot |
| `BSkipFacts.EntryMatchesStorage` | folly/ConcurrentBSkipList-detail.h:972-992 | the list's insertion of a routing entry is the insertion into the two arrays of an internal node |
| `BSkipFacts.EntriesSplitMatchesStorage` | folly/ConcurrentBSkipList-detail.h:955-970 | the list's split of an internal node cuts both arrays at the same place, with or without a promoted entry in front |
| `BSkipHeight.TopLevelForHash` | folly/ConcurrentBSkipList.h:1038-1049 | the level is always below the maximum height |
| `BSkipHeight.OddMixKeepsTrailingZeros` | folly/ConcurrentBSkipList.h:1039-1041 | multiplying by an odd number modulo any power of two keeps the number of trailing zeros |
| `BSkipHeight.LevelOfHash` | folly/ConcurrentBSkipList.h:1038-1049 | the level of a key as a function of its unmixed hash |
| `BSkipHeight.ReachesLevel` | folly/ConcurrentBSkipList.h:1045-1048 | a key reaches level l if and only if its hash ends in l zero digits |
| `BSkipLevels.StepInsert` | folly/ConcurrentBSkipList.h:933-949 | entering the key at its top level keeps every chain, every level's keys and every route, half-built tower included |
| `BSkipLevels.StepHalve` | folly/ConcurrentBSkipList.h:1177-1264 | halving a full node moves no key to another level and leaves all routes intact |
| `BSkipLevels.StepPromote` | folly/ConcurrentBSkipList.h:951-974 | the new sibling is headed by the key and is the node the entry above was waiting for |
| `BSkipList.BSkipList.constructor` | folly/ConcurrentBSkipList.h:162-174 | a new list is well formed and empty |
| `BSkipList.BSkipList.InsertImpl` | folly/ConcurrentBSkipList.h:823-889 | the whole descent with tower building keeps the list well formed and changes the value of one key as the chosen semantics says |
| `BSkipList.BSkipList.InsertAtInternalLevel` | folly/ConcurrentBSkipList.h:896-931 | one level of the descent: leave, enter or split, and where to go on |
| `BSkipList.BSkipList.InsertAtLeafLevel` | folly/ConcurrentBSkipList.h:982-1036 | the leaf end of an insertion, with or without a tower above |
| `BSkipList.BSkipList.InsertOrUpdateAtLeaf` | folly/ConcurrentBSkipList.h:1054-1074 | a known key is revived, updated or left alone, and the size follows |
| `BSkipList.BSkipList.DescendPromotedToLeaf` | folly/ConcurrentBSkipList.h:1097-1135 | first children lead from a routing entry equal to the key to the leaf the key heads |
| `BSkipList.BSkipList.SplitOffPromotedSibling` | folly/ConcurrentBSkipList.h:951-974 | the new node takes over what followed the key, and the chain is linked through it |
| `BSkipList.BSkipList.AppendPromotedAtTopLevel` | folly/ConcurrentBSkipList.h:933-949 | key and future child stand in the node that covers the key |
| `BSkipList.BSkipList.EnsureHeightAbove` | folly/ConcurrentBSkipList.h:1281-1317 | empty levels are added on top and nothing else changes |
| `BSkipList.BSkipList.CrabRight` | folly/ConcurrentBSkipList.h:741-758 | ends at the one node of the level whose range covers the key |
| `BSkipList.BSkipList.TraverseLeaf` | folly/ConcurrentBSkipList.h:775-814 | finds the key in its leaf if and only if the list knows it, and otherwise the place where it belongs |
| `BSkipList.BSkipList.Find` | folly/ConcurrentBSkipList.h:290-316 | the payload of a live key, nothing for a dead or unknown one |
| `BSkipList.BSkipList.AddKey` | folly/ConcurrentBSkipList.h:196-199 | true if and only if the key was not live; the contents gain exactly this key |
| `BSkipList.BSkipList.Add` | folly/ConcurrentBSkipList.h:202-214 | a live key keeps the payload it has |
| `BSkipList.BSkipList.AddOrUpdate` | folly/ConcurrentBSkipList.h:225-229 | the updater sees the live payload or none, and its answer becomes the payload |
| `BSkipList.BSkipList.RemoveAndGetPayload` | folly/ConcurrentBSkipList.h:249-267 | returns the live payload and removes exactly this key |
| `BSkipList.BSkipList.Remove` | folly/ConcurrentBSkipList.h:231-246 | true if and only if the key was live; afterwards it is not |
| `BSkipList.BSkipList.UpdatePayload` | folly/ConcurrentBSkipList.h:273-288 | only a live key is updated, and nothing else changes |
| `BSkipList.BSkipList.Empty` | folly/ConcurrentBSkipList.h:319-321 | true if and only if no key is live |
| `BSkipFacts.KeyOnItsLevels` | folly/ConcurrentBSkipList.h:823-1049 | every key ever inserted, live or dead, stands in exactly one node of each level up to its own and nowhere above |
| `BSkipFacts.LevelAscends` | folly/ConcurrentBSkipList.h:823-1049 | each level is strictly ascending within and across nodes |
| `BSkipFacts.NodeFacts` | folly/ConcurrentBSkipList.h:1141-1264 | the stored lower bound of the next node is its minimum, no node is over-full, and routing entries lead one level down to the node that starts with their key |
| `BSkipFacts.SizeCountsLive` | folly/ConcurrentBSkipList.h:319-321 | size is the number of live keys |
| `BSkipSkipper.CursorSurvives` | folly/ConcurrentBSkipList.h:2064-2076 | a cursor's cached leaf, slot and path stay usable through any change of the list |
| `BSkipSkipper.CursorSurvivesRun` | folly/ConcurrentBSkipList.h:2064-2076 | and through any number of changes |
| `BSkipSkipper.SkipperSurvives` | folly/ConcurrentBSkipList.h:2064-2076 | a valid cursor is valid after list operations by others |
| `BSkipSkipper.HitIsNext` | folly/ConcurrentBSkipList.h:1720-1756 | the first accepted slot holds the least live key with the property asked for |
| `BSkipSkipper.MissIsNone` | folly/ConcurrentBSkipList.h:1743-1747 | reaching the end of the leaves means there is no such key |
| `BSkipSkipper.Skipper.constructor` | folly/ConcurrentBSkipList.h:1366-1382 | a new cursor stands on the least live key or is exhausted |
| `BSkipSkipper.Skipper.Advance` | folly/ConcurrentBSkipList.h:1424-1444 | the least live key above the last one returned, even if the list has changed since |
| `BSkipSkipper.Skipper.SkipTo` | folly/ConcurrentBSkipList.h:1396-1422 | the least live key at or above the target, whichever of the five routes finds it |
| `BSkipSkipper.Skipper.ScanLockedLeafChain` | folly/ConcurrentBSkipList.h:1720-1756 | walks to the first accepted slot or marks the cursor exhausted |
| `BSkipSkipper.Skipper.AdvanceLocked` | folly/ConcurrentBSkipList.h:2053-2060 | the locked way gives the same answer |
| `BSkipSkipper.Skipper.ScanCurrentLeaf` | folly/ConcurrentBSkipList.h:1598-1638 | a hit in the current leaf is the answer, a miss changes nothing |
| `BSkipSkipper.Skipper.ScanAdjacentLeaf` | folly/ConcurrentBSkipList.h:1760-1859 | a hit in the right sibling is the answer, a miss changes nothing |
| `BSkipSkipper.Skipper.OptimisticDescendOnce` | folly/ConcurrentBSkipList.h:1641-1704 | a descent that may give up anywhere; a leaf it reaches starts at or below the target |
| `BSkipSkipper.Skipper.OptimisticDescend` | folly/ConcurrentBSkipList.h:1885-1930 | the answer, however often the descent gives up |
| `BSkipSkipper.Skipper.SkipToLockedFromRoot` | folly/ConcurrentBSkipList.h:1937-1964 | the answer, with a path usable by later searches |
| `BSkipScan.EmitFacts` | folly/ConcurrentBSkipList.h:356-421 | one leaf visit emits exactly the live keys above the last emitted one, ascending |
| `BSkipScan.ScanLeafLive` | folly/ConcurrentBSkipList.h:401-421 | the locked loop over a leaf computes that emission and its count |
| `BSkipScan.ScanIsExact` | folly/ConcurrentBSkipList.h:324-342 | in every interleaving with inserts, removes and splits a scan emits strictly ascending keys that were live at some moment, and at its end it has emitted every key that was live throughout, exactly once |
| `LazyHeap.LinkKeeps` | folly/ConcurrentSkipList.h:337-345 | linking a node at one layer between validated neighbours keeps all layers sorted, nested and complete |
| `LazyHeap.UnlinkKeeps` | folly/ConcurrentSkipList.h:392-395 | unlinking a marked node from one layer keeps them so |
| `LazyHeap.SwapHeadKeeps` | folly/ConcurrentSkipList.h:505-528 | a taller head with the old head's links can replace it |
| `LazyInvariant.LocalStable` | folly/ConcurrentSkipList.h:272-401 | what a thread has found out stays true whatever the others do |
| `LazyProofs.UnmarkedIsLinked` | folly/ConcurrentSkipList.h:272-301 | a predecessor found unmarked under its lock is linked, and a head is the current head |
| `LazyProofs.SuccIsVictim` | folly/ConcurrentSkipList.h:361-401 | while the victim is linked a validated successor can only be the victim |
| `LazyTheorems.RunInv` | folly/ConcurrentSkipList.h:223-401 | every reachable state satisfies the invariant |
| `LazyTheorems.LayersAreWhole` | folly/ConcurrentSkipList.h:223-250 | in every reachable state the links of each layer of the head lead from the head to the end in finitely many steps and pass every node linked there |
| `LazyTheorems.LayersSortedAndNested` | folly/ConcurrentSkipList.h:308-401 | in every reachable state each layer is strictly sorted and contained in the one below |
| `LazyTheorems.AddsAndRemovesAlternate` | folly/ConcurrentSkipList.h:308-401 | for each key successful adds and removes alternate, beginning with an add |
| `LazyTheorems.PresentMeansLinked` | folly/ConcurrentSkipList.h:308-401 | a key whose last successful operation is an add is held by a fully linked, unmarked node, and no other key is |
| `LazyTheorems.WaitsBelowHeld` | folly/ConcurrentSkipList.h:272-301 | a thread only waits for a node smaller than every node it has locked |
| `LazyTheorems.NoDeadlock` | folly/ConcurrentSkipList.h:272-401 | no reachable state has a cycle of threads waiting for each other's locks |
| `LazyReach.StepEvolves` | folly/ConcurrentSkipList.h:308-401 | no step unmarks or unlinks a finished node or brings a marked one back into a layer, and a node off a layer keeps the link it had |
| `LazyReach.SinceLeadsWell` | folly/ConcurrentSkipList.h:451-478 | from a node that was in a layer since a search began, removed meanwhile or not, the link leads to another such node, and past no node that stayed |
| `LazyLookups.LookupIsTrue` | folly/ConcurrentSkipList.h:254-264 | in every interleaving the answer of find, yes or no, was true at some moment of the call |
| `LazyLookups.AnnouncedOrNot` | folly/ConcurrentSkipList.h:308-359 | every key present by the finished adds and removes is in the list, and the only others are those whose node is not yet fully linked |
| `LazyAnswers.AddFoundIsTrue` | folly/ConcurrentSkipList.h:308-335 | an add that returns false had its key present at some moment of the call |
| `LazyAnswers.RemoveFailedIsTrue` | folly/ConcurrentSkipList.h:361-385 | a remove that returns false had its key absent at some moment of the call |
| `Recycler.DestroyedOnceAndUnseen` | folly/ConcurrentSkipList-inl.h:239-319 | a node is destroyed at most once, and only when every accessor that was in when it was unlinked has given its reference back |
| `Recycler.CountIsHolders` | folly/ConcurrentSkipList-inl.h:272-308 | the reference count is the number of accessors that are in |
| `LazyRecycling.RecyclerIsReady` | folly/ConcurrentSkipList.h:361-401 | a node that the list gives up, removed or replaced as head, was never given up before, and the thread that gives it up is an accessor that is in |
| `LazyRecycling.NothingDestroyedInUse` | folly/ConcurrentSkipList-inl.h:239-319 | in every execution of the list and the recycler together no thread searches from, validates, locks or links through a destroyed node |
| `CancellationInv.WordTests` | folly/CancellationToken-inl.h:384-402 | each test on the packed word means what its name says |
| `CancellationInv.DropTests` | folly/CancellationToken-inl.h:351-382 | a decremented word is below its threshold if and only if the last reference went |
| `CancellationRuns.WordIsTruth` | folly/CancellationToken-inl.h:85-106 | at every moment of every execution the packed word reads back as the real flags and owners, and at most one operation has the lock |
| `CancellationRuns.DestroyedByLastOwner` | folly/CancellationToken-inl.h:351-382 | the state is destroyed once, exactly by the step that takes both counts to zero, and then nothing is listed or under way |
| `CancellationRuns.RunsAtMostOnce` | folly/CancellationToken.cpp:40-179 | no callback is invoked twice |
| `CancellationRuns.RunsExactlyOnce` | folly/CancellationToken.cpp:121-179 | once the cancelling request has returned, every callback was invoked exactly once or was removed first |
| `CancellationRuns.ListOnlyShrinks` | folly/CancellationToken.cpp:121-179 | after the flag is set nothing joins the list |
| `CancellationRuns.RemovedIsQuiet` | folly/CancellationToken.cpp:77-119 | after removal has returned, unless from inside the callback itself, the callback neither runs nor ever will |
| `CallbackList.CallbackQueue.Push` | folly/CancellationToken.cpp:57-64 | the callback becomes the head of the intrusive list |
| `CallbackList.CallbackQueue.Unlink` | folly/CancellationToken.cpp:81-90 | the callback leaves the list if it is in it, wherever it stands, and the rest keeps its order |
| `CallbackList.CallbackQueue.Dequeue` | folly/CancellationToken.cpp:131-141 | the head is taken off and marked as no longer linked |
| `CancellationMerge.Collect` | folly/CancellationToken-inl.h:449-474 | the copied and the moved tokens, in order, without empties and adjacent duplicates |
| `CancellationMerge.KeptTokens` | folly/CancellationToken-inl.h:453-474 | dropping empties and adjacent duplicates loses no state |
| `CancellationMerge.InputsAreArgs` | folly/CancellationToken-inl.h:438-500 | the inputs of the merged state are the states of the arguments |
| `CancellationMerge.DeadStaysDead` | folly/CancellationToken-inl.h:388-397 | a state that cannot be cancelled any more never can again, so leaving its callback out is safe |
| `CancellationMerge.MergedIffSomeInput` | folly/CancellationToken.cpp:264-296 | a merged state whose constructor has finished is cancelled, when no request is in progress, if and only if one of its inputs is, whatever fell between two registrations |
| `CancellationMerge.NeverEarlyNeverLost` | folly/CancellationToken.cpp:264-296 | at every moment, also inside the constructor, a merged state is cancelled only if an input is, and a cancelled registered input has cancelled it or is about to |
| `CancellationMerge.MergeMeansAny` | folly/CancellationToken-inl.h:438-500 | once the merge has returned its token is cancelled if and only if one of the arguments is, for any arguments, requests during the merge included |
| `HashArray.PathInside` | folly/AtomicHashArray.h:41-59 | every probe of a search, linear or quadratic, lands inside the array with at most one subtraction |
| `HashArrayProofs.SettledForEver` | folly/AtomicHashArray-inl.h:164-342 | a cell with a key or an erased mark is never empty or locked again and never gets another key |
| `HashArrayProofs.LiveOnce` | folly/AtomicHashArray-inl.h:164-275 | in every execution a key is live in at most one cell, on its own probe path behind settled cells |
| `HashArrayProofs.NeverLiveAfterFull` | folly/AtomicHashArray-inl.h:176-215 | once an insert has reported the array full for a key, the key is never live in it |
| `HashArrayProofs.FindReturnsLive` | folly/AtomicHashArray-inl.h:100-123 | a find during which its key stays live returns the cell that holds it |
| `HashArrayProofs.EraseStaysErase` | folly/AtomicHashArray-inl.h:302-342 | an erase stays an erase of its key, probe after probe, until it returns how many it removed |
| `HashArrayProofs.RemovedMeansErased` | folly/AtomicHashArray-inl.h:315-332 | a cell loses its key exactly by the step with which an erase of that key returns 1, and becomes an erased mark |
| `HashArrayProofs.EraseRemovesLive` | folly/AtomicHashArray-inl.h:302-342 | an erase during which its key stays live in a cell, anywhere on the probe path, returns 1 and leaves that cell erased |
| `HashMap.LiveInOneSubMap` | folly/AtomicHashMap-inl.h:138-213 | no key is ever live in two sub-maps |
| `HashMap.FullMeansNeverLive` | folly/AtomicHashMap-inl.h:138-213 | a sub-map that was full for a key never gets that key |
| `HashMap.AllocatedOnce` | folly/AtomicHashMap-inl.h:168-191 | each place above the first is locked at most once, and each sub-map there was stored exactly once, at its own index, by the thread that locked the place |
| `HashMapFind.FindReturnsLive` | folly/AtomicHashMap-inl.h:303-326 | a find over the sub-maps during which its key stays live in one of them returns that sub-map and cell |
| `UnorderedMap.ReduceInside` | folly/AtomicUnorderedMap.h:415-422 | subtracting the number of slots until the masked hash is below it gives a slot index |
| `UnorderedProofs.ChainsEnd` | folly/AtomicUnorderedMap.h:261-315 | at every moment of every execution each chain is finite |
| `UnorderedProofs.ChainsApart` | folly/AtomicUnorderedMap.h:261-315 | a chain holds only keys of its slot, none twice, and shares nothing with another chain |
| `UnorderedProofs.FindIsStable` | folly/AtomicUnorderedMap.h:261-315 | once an element is in its chain every later find or findOrConstruct of its key returns it |
| `UnorderedProofs.ReturnedIsThere` | folly/AtomicUnorderedMap.h:261-315 | the slot a find or findOrConstruct returns, found, made or made by the one that won the race, is in the chain of its key |
| `UnorderedProofs.OneSlotPerKey` | folly/AtomicUnorderedMap.h:261-315 | all calls of one key that return a slot return the same one, the loser of a race included |
| `UnorderedProofs.LaterCallsAgree` | folly/AtomicUnorderedMap.h:261-333 | a call begun after another of the same key returned a slot finds that slot |
| `FBStringState.LiveIffHeld` | folly/FBString.h:498-505 | a block is live if and only if some string points at it, and its count is the number of those |
| `FBStringState.UnsharedIsAlone` | folly/FBString.h:760-767 | a count of one means nobody else can see a write |
| `FBStringState.LetGo` | folly/FBString.h:466-474 | letting go of storage changes no other string |
| `FBStringState.Share` | folly/FBString.h:680-685 | one more holder and one more in the count |
| `FBStringState.Relocate` | folly/FBString.h:532-555 | moving one string to a new block changes no other |
| `FBStringLayout.ReadBack` | folly/FBString.h:568-602 | the packed category and capacity can be read back if and only if the capacity leaves the two bits free |
| `FBStringLayout.TooLargeToRead` | folly/FBString.h:568-602 | a core with capacity 2^62 is not read back |
| `FBStringLayout.SizeByLastByte` | folly/FBString.h:399-414 | size() needs no category test: 23 minus the last byte is negative exactly for the heap categories |
| `FBString.WithSmallSize` | folly/FBString.h:616-625 | an inline string of the given size, terminated, with the characters that were there |
| `FBString.Pool.Construct` | folly/FBString.h:276-289 | the new string has exactly the given characters |
| `FBString.Pool.Acquire` | folly/FBString.h:305-323 | the string is the given part of the buffer taken over |
| `FBString.Pool.CopyConstruct` | folly/FBString.h:248-265 | an equal string; a large one shares its block |
| `FBString.Pool.MoveConstruct` | folly/FBString.h:269-274 | the goner's characters, and an empty goner |
| `FBString.Pool.Destroy` | folly/FBString.h:291-296 | the others are unchanged and the storage is released |
| `FBString.Pool.Swap` | folly/FBString.h:329-333 | two strings trade characters |
| `FBString.Pool.Unshare` | folly/FBString.h:745-758 | the fork has the same characters and no other holder; the shared block keeps its bytes |
| `FBString.Pool.ReserveSmall` | folly/FBString.h:826-855 | same characters in large enough storage of its own |
| `FBString.Pool.ReserveMedium` | folly/FBString.h:793-823 | the same by realloc or by way of a large temporary |
| `FBString.Pool.ReserveLarge` | folly/FBString.h:770-790 | the same, forking if the block is shared |
| `FBString.Pool.Reserve` | folly/FBString.h:372-391 | same characters, unshared, at least the room asked for, a capacity the allocator may give, and no less than before unless inline storage is given up for less |
| `FBString.NeverShrinksExactly` | folly/FBString.h:826-855 | for every string and room, no block size the allocator may pick shrinks the capacity if and only if inline storage is not given up for less than 23 |
| `FBString.ReserveMayShrink` | folly/FBString.h:826-855 | without inline storage reserve(0) may take a default-constructed string from capacity 23 to 0 |
| `FBString.Pool.ExpandNoinit` | folly/FBString.h:858-889 | the characters there stay, the size grows, and storage to be written is the string's own |
| `FBString.Pool.Shrink` | folly/FBString.h:360-369 | a prefix of the characters, without touching a sharer |
| `FBString.Pool.ShrinkShared` | folly/FBString.h:906-917 | shortening a shared string leaves the block to the others |
| `FBString.Pool.MutableData` | folly/FBString.h:340-351 | afterwards a write is seen by nobody else, and nothing readable has gone |
| `FBString.Pool.Resize` | folly/FBString.h:1858-1871 | cut to the size or filled up to it |
| `FBString.Pool.Fill` | folly/FBString.h:1947-1953 | n copies are appended |
| `FBString.Pool.PushBack` | folly/FBString.h:397 | one character is appended |
| `FBString.Pool.Append` | folly/FBString.h:1914-1944 | the characters the source had before the call are appended, also when they lie in the string's own or shared storage that moves meanwhile |
| `FBString.Pool.Assign` | folly/FBString.h:1965-1987 | the string becomes the characters the source had, also when it is a part of itself |
| `FBString.Pool.CopyAssign` | folly/FBString.h:1813-1823 | equal afterwards, self-assignment included |
| `FBString.Pool.MoveAssign` | folly/FBString.h:1826-1838 | takes the goner's characters and empties it, self-move included |
| `FBString.Pool.Write` | folly/FBString.h:340-351 | one character of one string changes |
| `FBString.Pool.Terminated` | folly/FBString.h:353-358 | c_str() reads the characters and then a terminator, in all categories |
| `FBString.Pool.Run` | folly/FBString.h:243-917 | after any sequence of operations on any number of strings, each is the character sequence that value semantics gives it |
| `FBStringFind.ShiftsMiss` | folly/FBString.h:2060-2072 | no occurrence starts inside a skip |
| `FBStringFind.Search` | folly/FBString.h:2042-2084 | the nested loops find the first occurrence or there is none |
| `FBStringFind.Find` | folly/FBString.h:2024-2084 | the least position at or after pos where the needle occurs, npos if and only if there is none, for every pos and needle including the wrapping sum |
| `Decimal.GreaterIsMore` | folly/Conv.cpp:640-644 | comparing digit strings of one length as text is comparing their values |
| `Conv.MaxTextIsMax` | folly/Conv.cpp:70-104 | each MaxString spells the largest value of its type and has one digit more than always fits |
| `Conv.PrefixInRange` | folly/Conv.cpp:625-648 | text that passes the overflow test cannot overflow at any prefix |
| `Conv.TooLong` | folly/Conv.cpp:625-644 | digits without leading zero that fail it denote a value out of range |
| `Conv.Accumulate` | folly/Conv.cpp:650-698 | four digits at a time with wrapping arithmetic gives the schoolbook value, and finds every non-digit |
| `Conv.FinalizeFits` | folly/Conv.cpp:559-581 | negating and looking at the sign detects exactly the values out of range |
| `Conv.DigitsTo` | folly/Conv.cpp:607-705 | schoolbook evaluation or the right error, for every width and sign |
| `Conv.OverflowExactly` | folly/Conv.cpp:540-551 | overflow is reported for exactly the values out of range if and only if the text is not an empty one in front of a sign |
| `Conv.EmptyBeforeSign` | folly/Conv.cpp:540-551 | an empty range in front of a minus sign is reported as an overflow |
| `Conv.FindFirstNonDigit` | folly/Conv.cpp:61-69 | the length of the longest run of digits |
| `Conv.StrToIntegral` | folly/Conv.cpp:745-791 | white space, sign, digits: the value, the error, and what is left |
| `ConvPrint.AsciiSize` | folly/lang/ToAscii.h:178-187 | the number of decimal digits |
| `ConvPrint.WriteDigits` | folly/lang/ToAscii.h:337-358 | the digits, zero-padded to the size, and nothing outside |
| `ConvPrint.Telescope128` | folly/Conv.h:355-400 | at most three pieces in base 10^19 give the decimal digits of any 128-bit value, within 39 characters |
| `ConvPrint.ToAppend128` | folly/Conv.h:517-539 | the canonical decimal text of any 128-bit value, the least one included |
| `ConvPrint.PrintedThenParsed` | folly/Conv.cpp:745-791 | parsing canonical text gives the value back and stops at the first non-digit, for every type |
| `ConvPrint.PrintAndParse` | folly/Conv.h:517-539 | printing and parsing every 128-bit value, whatever follows the digits |

## Left out

- Nodes and heap blocks are numbered entries of maps, not pointers; numbers are never reused, so reuse of a freed address is not modelled.
- Memory orders, seqlocks and spin budgets: an atomic action is one step and an optimistic read that fails to validate is an arbitrary choice to retry.
- The B-skip-list's hand-over-hand locking: list operations are sequential, and concurrency is modelled where a cursor or a scan meets a list that others change between its steps.
- Heterogeneous lookup keys, custom comparators and allocators; keys are integers strictly between the two sentinels.
- BSkipScan.ScanIsExact: speaks of keys, not of the payloads handed to the callback with them.
- LazyTheorems.PresentMeansLinked: does not relate the relaxed size counter to the set of keys.
- LazyTheorems.NoDeadlock: safety only; that a retrying add or remove eventually succeeds is not stated.
- Recycler: the variant for allocators that never free has nothing to prove.
- CancellationRuns.WordIsTruth: takes the two reference counts to stay below their field widths, as the source does.
- LazyLookups.LookupIsTrue: covers find and contains; lower_bound and iteration are not part of this model.
- CancellationMerge.MergeMeansAny: setting the flag of one state and registering with one state are single steps here; the interleaving inside one state is the subject of CancellationRuns. The lifetime of a merging state inside its own callback is left out.
- HashMap.AllocatedOnce: sizes of new sub-maps are arbitrary, and whether the growth fraction lets the map grow at all is a parameter. An erase of any sub-map may begin at any moment, which covers what AtomicHashMap::erase does to the cells; what its loop returns is not part of this model.
- AtomicHashArray counters (entries, pending entries) are exact numbers, not thread-cached approximations; when the array counts as full is an arbitrary choice.
- AtomicUnorderedInsertMap: the mutable-data variants and the mmap allocator.
- FBString.Pool.Run: allocation always succeeds and sizes do not wrap around; non-const data(), insert, replace and erase are left out, and so are other character widths and big-endian machines.
- FBStringFind.Find: takes the text to be shorter than npos, as any object in memory is.
- Conv.DigitsTo: characters index the tables as unsigned values.
- ConvPrint.AsciiSize: models the power-table variant; the variant that estimates the size from the leading zeros is not part of this model.
- Floating-point, boolean and enum conversions, range checks between arithmetic types, and delimiters in Conv: they would add easy members or belong to the floating-point libraries they call.
- Executors, futures, coroutines, IO and the other containers of the repository.
