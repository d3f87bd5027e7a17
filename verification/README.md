# Persistent-memory structures in Dafny

A model of five components of a persistent-memory repository, with proofs:

- **Ralloc** (`ralloc/src`), a lock-free persistent allocator. `Ralloc{Machine,Invariant,Frames,Steps,Descs,Blocks,Anchors,Theorems}` is the
  concurrent allocator, one atomic access at a time, over `CountedStack`; `RallocCalls` and `RallocNeed` say what whole calls do. `Ralloc{Sweep,Recovery,Exact,Collector}` is the mark-sweep recovery,
  and `RallocImage` is what a crash can leave in the descriptors.
- **P-Masstree** (`RECIPE/P-Masstree`), a persistent B-link tree. `Mass{Node,Tree,Rows,Stores,Steps,Split,Scan,Seats}` and `Masstree` are the tree with
  every persisted store logged; `Permuter` is the 64-bit permutation word; `MassRead` is a validated reader among writers;
  `MassStrings` and `MassLayers` are string keys, and `MassForest` puts a tree under every layer.
- **P-CLHT** (`RECIPE/P-CLHT`), a bucket hash table. `ClhtHash` is the bucket mask, `ClhtTable` the table, `ClhtResize` and `ClhtProof` the resize shared by two threads.
- **P-ART** (`RECIPE/P-ART`), an adaptive radix tree. `ArtNode` is the four node layouts; `Art{Tree,Edits,Steps,Prefix,Short}` and `Art` the
  path-compressed tree, `ArtTorn` and `ArtLost` the same with crashes inside a split or merge; `Epoch{List,Machine,Calls}` the epoch-based reclaimer, which Masstree shares.
- **Array stack and queue** (`ralloc/old`). `ArrayStack` and `ArrayQueue` are non-blocking structures whose last write is left pending.

Protocols are small-step machines: a run is a sequence of states in which each step is one atomic load, store or compare-and-swap of one thread,
and theorems quantify over all runs. Sequential code is classes and loops proved against functions. Where a crash matters, a ghost
field collects every state a crash could have left behind. Neighbouring states in it differ by one persisted store, the last one is the
present state, and the contract says which map each of them stands for.
Memory is sequentially consistent and ABA counters are unbounded. Clocks, allocation of memory and flush instructions are abstracted: a
store that the code flushes is one persisted step. A compare-and-swap that may fail spuriously has a parameter that lets it.

Where the code differs from what one might expect, the model follows the code:

- The recovery sweep is right exactly for marks that no interior pointer disturbs (`RallocExact.RecoveryIff`), though a comment allows such
  pointers; `InteriorMarkBreaks`, `StalledCursorRetiresLive` and `MiddlePointerLosesBlock` are concrete failures.
- The descriptor of a large block is not flushed when the block is handed out (`do_malloc` passes the address of a local variable), so a crash can
  leave a large block in use that the medium knows nothing of; `RallocImage.LargeIsDurableIff` says exactly when it does not.
- `small_sb_alloc` keeps a stale list head on its retry paths; the machine does too, and safety does not depend on it.
- Masstree's torn-split test compares with `>`, which is right because a split always moves at least two entries (`MassSteps.TornTest`).
- P-ART's `lookup` returns a wrong value for some proper prefixes of stored keys (`Art.Tree.Lookup` gives the exact condition).
- P-ART's `insert` trips an assertion when the key is a prefix of a stored one or has one as a prefix (`Tree.cpp` lines 287, 346 and 366), and for a key that
  is stored already it passes the assertion and reads past both keys (lines 368-370); the model returns false there and binds nothing.
- P-ART's lookup can lose a stored key after a crash in a prefix split (`ArtLost.CrashHidesKey`), until an insert comes through the node; `remove`
  does not repair what it comes through.
- `insert_selected` is right only when the target is not above the source (`Permuter.SelectIffOrdered`), which its preconditions do not say.
- A growing resize keeps its two copiers apart exactly if the masks are nested (`ClhtHash.KeepsApartIff`), as they are for powers of two; `clht_create`
  takes any size.

## Model

| member | source | states |
|---|---|---|
| `RallocTheorems.RunInv` | ralloc/src/BaseMeta.cpp:310-721 | Every state of every interleaving of mallocs, frees and cache flushes by any number of threads, one atomic load, store or compare-and-swap at a time, satisfies the allocator invariant. |
| `RallocTheorems.StepKeeps` | ralloc/src/BaseMeta.cpp:310-721 | Each single step of each operation keeps the invariant and acts on the free-superblock and partial lists exactly as the stack operation it stands for. |
| `RallocTheorems.ExclusiveOwnership` | ralloc/src/BaseMeta.cpp:310-408 | In every reachable state each block of each superblock in use is in exactly one place read off memory: the user, one thread's cache, one batch or block in flight, or its superblock's free list; none is lost and none is listed twice. |
| `RallocTheorems.MallocIsFresh` | ralloc/src/BaseMeta.cpp:659-694 | The block a malloc takes at its last step has the class that step works on, is in range, was not in the user's hands, and nothing else changes hands (for the class asked for, see `MallocCall`). |
| `RallocTheorems.StacksAreSequential` | ralloc/src/BaseMeta.cpp:424-448 | Both descriptor stacks are always finite, acyclic lists, and every step changes them like the sequential push or pop it stands for, over all runs. |
| `RallocTheorems.PopSeesSuccessor` | ralloc/src/BaseMeta.cpp:435-448 | Although pops leave the counter alone, whenever a pop's compare-and-swap is about to succeed the next pointer it loaded earlier is the head's successor now. |
| `RallocTheorems.DescriptorLifeCycle` | ralloc/src/BaseMeta.cpp:366-406 | A descriptor on the free list has no class; on a partial list it is PARTIAL or EMPTY and of that class; a FULL one is on no list and in no thread's hands; one that is not FULL is on its partial list or in exactly one thread's hands; only an EMPTY one is about to be retired. |
| `RallocTheorems.RetiredOnce` | ralloc/src/BaseMeta.cpp:626-636 | Between two retirements of the same superblock it was formatted again, so each superblock that becomes EMPTY is retired at most once. |
| `RallocTheorems.AssertionsHold` | ralloc/src/BaseMeta.cpp:325-408 | The assertions of fill_cache, flush_cache, heap_push_partial, malloc_from_partial and pop_block hold in every reachable state. |
| `RallocCalls.MallocCall` | ralloc/src/BaseMeta.cpp:686-694 | Over every run, from the call on: a malloc of class sc that is done has handed the user exactly one block, once, fresh and of class sc; one that is not done has handed out nothing. |
| `RallocCalls.FreeCall` | ralloc/src/BaseMeta.cpp:695-721 | Over every run: the block leaves the user when free is called, nothing else changes hands, and when the call is done the block is on top of the thread's cache of its class, whether or not the cache was flushed. |
| `RallocCalls.FlushCall` | ralloc/src/BaseMeta.cpp:325-408 | Over every run: when a flush is done the cache is empty, and the user's blocks are as they were. |
| `RallocNeed.FormatMetNoPartial` | ralloc/src/BaseMeta.cpp:310-319 | Over every run: a malloc formats a superblock only if during that call the partial list of its class was empty. |
| `RallocNeed.GrowMetNoneFree` | ralloc/src/BaseMeta.cpp:573-624 | Over every run: a malloc extends the region only if during that call its partial list was empty and later the list of free superblocks was, with the region as long as it is at the moment of the extension; so no two threads extend it for the same want. |
| `RallocNeed.CachesBounded` | ralloc/src/BaseMeta.cpp:716-720 | In every reachable state no thread cache holds more blocks than a superblock of its class. |
| `CountedStack.PopIsSequential` | ralloc/src/BaseMeta.cpp:435-448 | A pop whose head matches unlinks exactly the first node, whatever happened since its loads. |
| `CountedStack.PushIsSequential` | ralloc/src/BaseMeta.cpp:554-571 | A push whose head matches puts a private chain of any length in front of the list. |
| `CountedStack.LoadedAfterPop` | ralloc/src/BaseMeta.cpp:435-448 | A loaded (head, next) pair stays reliable across another thread's pop even though pop keeps the counter. |
| `CountedStack.LoadedAfterPush` | ralloc/src/BaseMeta.cpp:424-433 | A loaded pair stays reliable across a push, which never brings an old head word back. |
| `RallocSweep.ExactIffCovered` | ralloc/src/BaseMeta.cpp:786-847 | The free list the sweep builds for a small superblock holds exactly the blocks without a marked address, if and only if every mark that is not a block start is at most one block size above another mark and at most one below the next, or the end. |
| `RallocSweep.InteriorMarkBreaks` | ralloc/src/BaseMeta.cpp:786-847 | One marked interior address is enough: with 24 marked in 16-byte blocks the sweep frees the live block at 16, and two chunks that are no blocks. |
| `RallocSweep.FreedSorted` | ralloc/src/BaseMeta.cpp:786-847 | Whatever the marks, no chunk is freed twice. |
| `RallocRecovery.CursorFinishes` | ralloc/src/BaseMeta.cpp:786-815 | The cursor passes every mark if and only if none lies in the skipped first superblock or behind the head of a surviving large block. |
| `RallocRecovery.SweepOutcome` | ralloc/src/BaseMeta.cpp:773-877 | What the sweep leaves, whatever the marks: if the cursor is not stalled, each superblock in its path has the free list, anchor and descriptor its own marks call for, one without marks is blank and on the free-superblock list exactly once, the partly free ones are on the partial list of their class, and superblocks jumped over are untouched. |
| `RallocRecovery.SweepRecovers` | ralloc/src/BaseMeta.cpp:780-874 | A superblock in the path of the sweep ends as the marks it holds say, whichever round comes to it and whatever rounds come before and after. |
| `RallocExact.RecoveryIff` | ralloc/src/BaseMeta.cpp:773-880 | The whole heap: the four assertions of the sweep hold (a large block counts one block, a list of free blocks has a head, the head is at a block boundary, all marks are passed), every block with a marked address anywhere in it survives, a large one with all its contents, every other block is free exactly once, and the free-superblock and partial lists are exact, if and only if no mark lies in the first superblock or behind the head of a large block and the marks in every small superblock are covered. |
| `RallocExact.MiddlePointerLosesBlock` | ralloc/src/BaseMeta.cpp:797-815 | A large block that is pointed at only behind its head, which the comment allows, is wiped and its superblocks are freed, with no assertion failing. |
| `RallocExact.SmallIsRight` | ralloc/src/BaseMeta.cpp:786-860 | For one small superblock: the rebuilt list starts at a block boundary, where the anchor says, and holds exactly the dead blocks, if and only if its marks are covered. |
| `RallocImage.StepKeeps` | ralloc/src/BaseMeta.cpp:505-687 | Every single store to a descriptor, by formatting, retiring, allocating or freeing, every flush, every write-back of a cache line at any moment and every growth of the region keeps the descriptor invariant. |
| `RallocImage.RunInv` | ralloc/src/BaseMeta.cpp:505-687 | The descriptor invariant holds in every state of every run. |
| `RallocImage.ImageIsWellFormed` | ralloc/src/BaseMeta.cpp:554-687 | Whenever a crash comes, what is on the medium is well-formed: a descriptor that says it is in use is complete, a large block lies inside the region and is alone in its span, because the constructor clears and flushes the head before the span is given back. This is what recovery starts from. |
| `RallocImage.SmallIsDurable` | ralloc/src/BaseMeta.cpp:516-542 | A small superblock that has been handed out is on the medium as such, and one that was retired is not. |
| `RallocImage.LargeIsDurableIff` | ralloc/src/BaseMeta.cpp:659-687 | The descriptor of a large block survives a crash if and only if its cache line happens to have been written back after the last store, since do_malloc flushes the address of a local variable instead. |
| `RallocImage.FormatLasts` | ralloc/src/BaseMeta.cpp:509-542 | Over every run, from the formatting on until the superblock is retired: class and size stay, and once it is handed out memory and medium both hold the descriptor with that class, its own address, that size and as many blocks as fit. |
| `RallocImage.LargeLasts` | ralloc/src/BaseMeta.cpp:659-687 | Over every run, from the extension for a large block on until it is given back: once it is handed out its descriptor has class 0, its own address, its size in bytes and one block. |
| `RallocRecovery.FreeListIffCovered` | ralloc/src/BaseMeta.cpp:786-847 | For a superblock anywhere in the region, its rebuilt free list is right if and only if its marks, relative to its start, are covered. |
| `RallocRecovery.StalledCursorRetiresLive` | ralloc/src/BaseMeta.cpp:786-815 | A mark in the skipped first superblock stalls the cursor, and a superblock with live blocks is then put on the free list. |
| `RallocCollector.GarbageCollection.MarkFunc` | ralloc/src/BaseMeta.hpp:310-328 | Marks an address and queues it for filtering exactly when it is in range and new. |
| `RallocCollector.GarbageCollection.FilterFunc` | ralloc/src/BaseMeta.hpp:486-499 | Marks every in-range pointer found at any byte of the block, from its address up to its size in the descriptor, and nothing else. |
| `RallocCollector.GarbageCollection.Mark` | ralloc/src/BaseMeta.cpp:756-768 | Terminates; roots in range are marked; a pointer in range at any byte of the block a marked address starts, up to the size in its descriptor, is marked; and every mark is reached from a root by a chain of such pointers. |
| `RallocCollector.GarbageCollection.FreeUpTo` | ralloc/src/BaseMeta.cpp:804-810 | Links the chunks below the limit in front of the free list, each pointing to the one before. |
| `RallocCollector.GarbageCollection.PassMarks` | ralloc/src/BaseMeta.cpp:786-815 | Passes exactly the marks of the superblock, freeing what lies between them. |
| `RallocCollector.GarbageCollection.Sweep` | ralloc/src/BaseMeta.cpp:773-877 | The in-place loop computes the sweep function on the whole heap image. |
| `RallocCollector.GarbageCollection.SweepNext` | ralloc/src/BaseMeta.cpp:780-874 | One round is one step of the sweep function, for empty, large and small superblocks. |
| `RallocCollector.GarbageCollection.Rebuild` | ralloc/src/BaseMeta.cpp:840-871 | Frees the end of a small superblock, sets its anchor and pushes it on its partial list. |
| `RallocCollector.GarbageCollection.Collect` | ralloc/src/BaseMeta.cpp:740-880 | Recovery end to end: exactly what chains of in-range pointers, found at any byte of whole blocks, reach from the roots is marked, then those marks are swept; all marks are passed if and only if none is skipped, and the recovered heap is right if and only if the marks fit (the condition of `RecoveryIff`). |
| `Masstree.Masstree.constructor` | RECIPE/P-Masstree/masstree.cpp:129-134 | A new tree stands for the empty map, is a root alone, and its log of persisted states starts with it. |
| `Masstree.Masstree.Reopen` | RECIPE/P-Masstree/masstree.cpp:136-140 | Any persisted state that stands for a map can be reopened as a tree for that map. |
| `Masstree.Masstree.AdvanceToKey` | RECIPE/P-Masstree/masstree.cpp:292-301 | One hop right exactly when the key is not below the sibling's fence. |
| `Masstree.Masstree.Get` | RECIPE/P-Masstree/masstree.cpp:1835-1936 | get returns what the map says, also in the middle of unfinished splits. |
| `Masstree.Masstree.Put` | RECIPE/P-Masstree/masstree.cpp:459-553 | put binds the key. The log goes on store by store from the state before the call: neighbours differ in one slot, one permutation, one sibling pointer, the root pointer or a node nothing points to. Every state but the last stands for the old map and the last one for the new map, through leaf, inner and root splits and recovery of splits met on the way. A tree in which every node but the root is a child of a node one level up stays such a tree, however many levels split. |
| `Masstree.Masstree.RemoveKey` | RECIPE/P-Masstree/masstree.cpp:1323-1331 | The in-place removal unbinds a bound key; the log goes on store by store, before the last store with the old map and after it with the new; it refuses only when the key is the one entry of its leaf, which the merge path handles. |
| `Masstree.Masstree.LeafInsert` | RECIPE/P-Masstree/masstree.cpp:1197-1315 | Inserts into a leaf with room or splits it, store by store, keeping the map until the final permutation store. |
| `Masstree.Masstree.TellParent` | RECIPE/P-Masstree/masstree.cpp:1261-1283 | The sibling split off a leaf gets a parent, a new root or the one the leaf has, in persisted stores that all keep the map; if it was the only node without a parent, there is none any more. |
| `Masstree.Masstree.HalveLeaf` | RECIPE/P-Masstree/masstree.cpp:1235-1259 | Takes back an uncut sibling, links a filled one and cuts the left leaf; every state persisted meanwhile stands for the same map. |
| `Masstree.Masstree.TakeBack` | RECIPE/P-Masstree/masstree.cpp:1235-1241 | A full node that was linked but never cut gives its sibling back without changing the map. |
| `Masstree.Masstree.MakeSibling` | RECIPE/P-Masstree/masstree.cpp:1243-1259 | Filling, linking and cutting keep the map and the ways down to every key. |
| `Masstree.Masstree.RaiseRoot` | RECIPE/P-Masstree/masstree.cpp:1275-1278 | A new root over the old one and its sibling keeps the map. |
| `Masstree.Masstree.Split` | RECIPE/P-Masstree/masstree.cpp:1636-1738 | Makes a new sibling a child of its parent level, splitting upward as needed, without changing the map; if it was the only node without a parent, there is none any more. |
| `Masstree.Masstree.InterInsert` | RECIPE/P-Masstree/masstree.cpp:1416-1554 | Adds a child to an inner node, splitting it and its ancestors as needed; every persisted state keeps the map. |
| `Masstree.Masstree.SplitInner` | RECIPE/P-Masstree/masstree.cpp:1460-1514 | The split of a full inner node, in its several persisted stores. |
| `Masstree.Masstree.CutPerm` | RECIPE/P-Masstree/masstree.cpp:413-421 | Drops from the permutation exactly the keys the sibling has taken over. |
| `Masstree.Masstree.CheckForRecovery` | RECIPE/P-Masstree/masstree.cpp:411-457 | From any torn split the left node is cut, the right one gets a parent or a new root is raised, the map stays in every persisted state, logged store by store, a second run changes nothing, and nor does any run on a tree in which every node but the root is a child. |
| `Masstree.Masstree.Scan` | RECIPE/P-Masstree/masstree.cpp:2279-2367 | On a tree without half-done leaf splits, which the constructor, put, removal and repair all establish or keep, scan returns exactly the values of the num smallest keys from min on, in key order. |
| `Masstree.PutsThenRead` | RECIPE/P-Masstree/masstree.cpp:658-777 | Any sequence of puts into a new tree, then a get and a scan, answers as the map those puts build. |
| `Masstree.MeansOne` | RECIPE/P-Masstree/masstree.cpp:1938-2067 | A persisted state, however torn, stands for one map only. |
| `MassScan.ScanUnique` | RECIPE/P-Masstree/masstree.cpp:2279-2367 | The result of a scan is determined by the map, the first key and the number asked for. |
| `MassSplit.KeyLowerBoundBy` | RECIPE/P-Masstree/masstree.cpp:257-272 | The binary search through the permutation finds the key's rank and whether it is there. |
| `MassSplit.KeyLowerBound` | RECIPE/P-Masstree/masstree.cpp:274-290 | The binary search finds the last entry at or below the key, or none. |
| `MassSplit.SplitInto` | RECIPE/P-Masstree/masstree.cpp:1011-1040 | The right half of a full leaf with the new pair merged in takes over exactly the keys from its fence on, and both halves have room. |
| `MassSplit.SplitIntoInter` | RECIPE/P-Masstree/masstree.cpp:1042-1064 | The right half of a full inner node takes over the entries above the middle key, which becomes its fence. |
| `MassSteps.PublishStep` | RECIPE/P-Masstree/masstree.cpp:1211-1215 | The permutation store of an insert adds exactly the new pair to the map. |
| `MassSteps.AssignStep` | RECIPE/P-Masstree/masstree.cpp:1066-1070 | Writing a slot no permutation lists leaves the map alone. |
| `MassSteps.LinkStep` | RECIPE/P-Masstree/masstree.cpp:1011-1040 | Linking a filled right sibling leaves the map alone: entries from its fence on are read there. |
| `MassSteps.UnlinkStep` | RECIPE/P-Masstree/masstree.cpp:1235-1241 | Taking back a sibling whose left neighbour was never cut leaves the map alone. |
| `MassSteps.CutStep` | RECIPE/P-Masstree/masstree.cpp:1251-1259 | Truncating the left permutation to the keys below the fence leaves the map alone. |
| `MassSteps.AdoptStep` | RECIPE/P-Masstree/masstree.cpp:1423-1435 | Adding a child to an inner node leaves the map alone. |
| `MassSteps.RootStep` | RECIPE/P-Masstree/masstree.cpp:1275-1278 | Swinging the root pointer leaves the map alone. |
| `MassSteps.TornTest` | RECIPE/P-Masstree/masstree.cpp:1235-1237 | Comparing a full node's last key with its sibling's fence tells exactly whether the split is half done. |
| `MassScan.FlatIsMap` | RECIPE/P-Masstree/masstree.cpp:2330-2364 | Without half-done splits the leaves, read left to right, hold exactly the map. |
| `MassScan.ScanRight` | RECIPE/P-Masstree/masstree.cpp:2279-2367 | A prefix of the entries from min on, cut only at num, is exactly what a scan of the map must return. |
| `MassScan.OrderedIffClean` | RECIPE/P-Masstree/masstree.cpp:2279-2367 | Reading the leaves left to right meets every key once, in order, if and only if no leaf split is half done. |
| `MassRead.StepKeeps` | RECIPE/P-Masstree/masstree.cpp:178-248 | Every writer step, on any leaf of any tree, keeps the leaf right about the keys between its fences while keys of other leaves come and go. |
| `MassRead.ReadKeeps` | RECIPE/P-Masstree/masstree.cpp:1882-1935 | What a reader may still rely on survives every step of every writer, although deletes and inserts into fresh slots give the version word back. |
| `MassRead.ValidatedRead` | RECIPE/P-Masstree/masstree.cpp:1882-1935 | On any leaf, new, split off or reopened: an answer given after an unchanged version word was true of the key at some moment between the two loads of the word, in the map that the updates begun and published so far make. |
| `MassRead.GetIsTrue` | RECIPE/P-Masstree/masstree.cpp:1882-1935 | A whole get, from its first step on: its answer is for the key asked for, and was true at some moment of the call in the map the updates so far make. |
| `MassRead.TruthFollows` | RECIPE/P-Masstree/masstree.cpp:1197-1215 | The map the leaf is measured by is computed from the steps alone: publishing an insert or an update binds the key and value it was called with, a removal unbinds its key. |
| `MassRead.LeafFollows` | RECIPE/P-Masstree/masstree.cpp:1197-1215 | In every state, for the keys between its fences, the leaf holds just what those updates make. |
| `MassRead.EveryLeafStarts` | RECIPE/P-Masstree/masstree.cpp:1882-1935 | Every leaf of every tree state is where such a run may start, unless a crash left its split half done. |
| `MassStrings.SlicesOrder` | RECIPE/P-Masstree/masstree.cpp:115-127 | Two different NUL-free strings agree on all 8-byte slices before one that both have, counting a slice of zeros, and there compare like the strings: slicing is injective and order-preserving. |
| `MassStrings.MakeLeaf` | RECIPE/P-Masstree/masstree.cpp:312-336 | Cuts a key into its big-endian slices plus one of zeros. |
| `MassStrings.Keycmp` | RECIPE/P-Masstree/masstree.cpp:115-127 | The comparison of slices has the sign of the string comparison, and is zero exactly when the slices of the first string agree. |
| `MassLayers.StringTree.Lookup` | RECIPE/P-Masstree/masstree.cpp:1938-2067 | get on a string key returns what the map says, through any number of layers. |
| `MassLayers.StringTree.Put` | RECIPE/P-Masstree/masstree.cpp:658-777 | put on a string key binds it; the log goes on store by store, neighbours differing in one slot of one layer or a layer nothing leads to, and every state before the last stands for the old map. |
| `MassForest.PutSlot` | RECIPE/P-Masstree/masstree.cpp:658-777 | With every layer a tree of its own, setting a slot of a layer is a put into that tree, and every state persisted on the way, in the middle of a split or of its repair, stands for the old map of strings, the last one for the new. |
| `MassForest.OutOfSight` | RECIPE/P-Masstree/masstree.cpp:363-409 | While a new layer is filled, its tree may be in any state: the forest stands for the same map until a slot leads to it. |
| `MassForest.NewLayer` | RECIPE/P-Masstree/masstree.cpp:385-409 | A finished tree joins the layers before any slot leads to it. |
| `MassForest.StandsOne` | RECIPE/P-Masstree/masstree.cpp:1938-2067 | A forest of layer trees, however torn, binds each key in one way only. |
| `MassLayers.StringTree.MakeNewLayer` | RECIPE/P-Masstree/masstree.cpp:363-409 | For two keys that share slices, builds their layers out of sight and links them in one store, after which both keys are found and every other lookup is unchanged. |
| `MassLayers.StringTree.BuildChain` | RECIPE/P-Masstree/masstree.cpp:368-383 | The twig loop ends at the first slice where the keys differ, within both keys, for any two distinct keys. |
| `MassLayers.FindTwig` | RECIPE/P-Masstree/masstree.cpp:385-409 | A finished twig holds exactly the two keys. |
| `Permuter.InsertRefines` | RECIPE/P-Masstree/masstree.h:198-209 | On words, insert_from_back is the sequence operation: the last slot moves to position i. |
| `Permuter.RemoveRefines` | RECIPE/P-Masstree/masstree.h:280-291 | On words, remove_to_back moves slot i to the back. |
| `Permuter.RemoveUndoesInsert` | RECIPE/P-Masstree/masstree.h:198-291 | remove_to_back(i) after insert_from_back(i) gives the very same word back. |
| `Permuter.SizeRefines` | RECIPE/P-Masstree/masstree.h:176-180 | set_size changes the size and no slot. |
| `Permuter.SortedRefines` | RECIPE/P-Masstree/masstree.h:136-151 | make_sorted(n) is the identity permutation with n in use. |
| `Permuter.SelectRefines` | RECIPE/P-Masstree/masstree.h:210-228 | insert_selected moves the element from position i to position d, for d at or below i. |
| `Permuter.SelectIffOrdered` | RECIPE/P-Masstree/masstree.h:210-228 | insert_selected puts the element at its target and leaves a permutation if and only if the target is not above the source. |
| `Permuter.DropRefines` | RECIPE/P-Masstree/masstree.h:229-261 | remove moves the element at i behind the used ones. |
| `Permuter.ExchangeRefines` | RECIPE/P-Masstree/masstree.h:318-323 | exchange swaps two slots. |
| `Permuter.ValuesRefine` | RECIPE/P-Masstree/masstree.h:325-333 | The word exchange_values gathers swaps the two values wherever they are. |
| `Permuter.ValueFrom` | RECIPE/P-Masstree/masstree.h:172-174 | value_from(i), shifted on, yields the elements from i on in order. |
| `Permuter.PermuterWord.MakeSorted` | RECIPE/P-Masstree/masstree.h:146-151 | Builds a valid word. |
| `Permuter.PermuterWord.InsertFromBack` | RECIPE/P-Masstree/masstree.h:198-209 | Keeps a permutation, refines the sequence operation and returns the slot it took. |
| `Permuter.PermuterWord.RemoveToBack` | RECIPE/P-Masstree/masstree.h:280-291 | Keeps a permutation and refines the sequence operation. |
| `Permuter.PermuterWord.SetSize` | RECIPE/P-Masstree/masstree.h:176-180 | Keeps a permutation and refines the sequence operation. |
| `Permuter.PermuterWord.InsertSelected` | RECIPE/P-Masstree/masstree.h:215-228 | Keeps a permutation and moves the element when the target is not above the source, and fails to otherwise. |
| `Permuter.PermuterWord.Remove` | RECIPE/P-Masstree/masstree.h:246-261 | Keeps a permutation and refines the sequence operation. |
| `Permuter.PermuterWord.Exchange` | RECIPE/P-Masstree/masstree.h:319-323 | Keeps a permutation and swaps two slots. |
| `Permuter.PermuterWord.ExchangeValues` | RECIPE/P-Masstree/masstree.h:326-333 | The shifting loop keeps a permutation and swaps two values. |
| `ClhtHash.KeepsApartIff` | RECIPE/P-CLHT/src/clht_lb_res.c:309-318 | Keys of different buckets stay apart in a table of another size if and only if the bits of the one mask are among those of the other. |
| `ClhtHash.PowersNested` | RECIPE/P-CLHT/src/clht_lb_res.c:645-665 | Masks of powers of two are nested, so growing by a power of two keeps buckets apart. |
| `ClhtHash.BinRefines` | RECIPE/P-CLHT/src/clht_lb_res.c:309-318 | With nested masks the bucket in the smaller table follows from the one in the larger. |
| `ClhtHash.MaskIsRemainder` | RECIPE/P-CLHT/src/clht_lb_res.c:309-318 | For a power of two the mask picks the remainder, so every bucket is used. |
| `ClhtHash.OddSizesMix` | RECIPE/P-CLHT/src/clht_lb_res.c:309-318 | Doubling a table of three buckets sends keys of different buckets to the same one. |
| `ClhtTable.Clht.constructor` | RECIPE/P-CLHT/src/clht_lb_res.c:249-306 | A new table of any positive size stands for the empty map, and its log starts with it. |
| `ClhtTable.Clht.Create` | RECIPE/P-CLHT/src/clht_lb_res.c:249-306 | A table is created exactly when it has buckets, and stands for the empty map. |
| `ClhtTable.Clht.Get` | RECIPE/P-CLHT/src/clht_lb_res.c:322-354 | get returns what the map says. |
| `ClhtTable.Clht.Put` | RECIPE/P-CLHT/src/clht_lb_res.c:376-468 | put binds a key exactly when it was absent and never stores a key twice; it fills the first hole of the chain and adds a bucket only if there is none, just as a put in the middle of a resize does. The log goes on store by store: neighbours differ in one entry or one linked bucket; every state but the last stands for the old map. |
| `ClhtTable.Clht.Remove` | RECIPE/P-CLHT/src/clht_lb_res.c:471-517 | remove returns and unbinds the value in one persisted store, and logs it; only the one entry changes, just as in the middle of a resize. |
| `ClhtProof.StepKeeps` | RECIPE/P-CLHT/src/clht_lb_res.c:520-631 | Every step of the resizer, the helper and the threads still updating unlocked buckets keeps the resize invariant. |
| `ClhtProof.RunInv` | RECIPE/P-CLHT/src/clht_lb_res.c:636-819 | The resize invariant holds in every state of every run. |
| `ClhtProof.TargetsApart` | RECIPE/P-CLHT/src/clht_lb_res.c:553-606 | On growth the resizer and the helper never store into the same chain of the new table. |
| `ClhtProof.CopiersApart` | RECIPE/P-CLHT/src/clht_lb_res.c:609-631 | In every reachable state the two copiers are at different old buckets and different new chains. |
| `ClhtProof.CopiedOnce` | RECIPE/P-CLHT/src/clht_lb_res.c:609-690 | No old bucket is claimed for copying twice. |
| `ClhtProof.SwapIsExact` | RECIPE/P-CLHT/src/clht_lb_res.c:758-791 | When the table pointer may be swapped the new table holds exactly what the old one holds at that moment, and every old bucket is locked for the resize. |
| `ClhtProof.SwapKeepsMap` | RECIPE/P-CLHT/src/clht_lb_res.c:758-791 | The swapped-in table stands for the same map as the old one at that moment. |
| `ClhtProof.OldMeans` | RECIPE/P-CLHT/src/clht_lb_res.c:376-517 | In every state of a resize the old table stands for the map that the puts and removes so far make of the one at the start. |
| `ClhtProof.NewMeans` | RECIPE/P-CLHT/src/clht_lb_res.c:758-791 | And so does the new table from the moment it may be swapped in: no update made during the resize is lost or changed. |
| `EpochList.DeletionList.Add` | RECIPE/P-ART/Epoche.cpp:41-62 | Adds the node under the present epoch and keeps added == deleted + size. |
| `EpochList.DeletionList.Remove` | RECIPE/P-ART/Epoche.cpp:28-39 | Drops one label and keeps added == deleted + size. |
| `EpochList.DeletionList.Cleanup` | RECIPE/P-ART/Epoche.cpp:100-114 | Frees and drops exactly the labels older than the oldest epoch seen. |
| `EpochList.CleanupSplits` | RECIPE/P-ART/Epoche.cpp:100-114 | Every node is either kept or freed by a cleanup. |
| `EpochMachine.StepKeeps` | RECIPE/P-ART/Epoche.cpp:68-116 | Every step, with a non-atomic scan and a load-then-store epoch entry, keeps the reclamation invariant. |
| `EpochMachine.RunInv` | RECIPE/P-ART/Epoche.cpp:68-116 | The invariant holds in every state of every run. |
| `EpochMachine.FreeIsSafe` | RECIPE/P-ART/Epoche.cpp:92-108 | A label older than the scan's result holds nothing that any thread inside its guard may still have. |
| `EpochMachine.ReclamationIsSafe` | RECIPE/P-ART/Epoche.cpp:68-116 | In every reachable state nothing a thread inside its guard may have met is freed, nothing linked is freed, and added == deleted + size for every thread. |
| `EpochMachine.MetIsNotFreed` | RECIPE/P-ART/Epoche.cpp:68-116 | Whatever was linked in any state since a thread entered its guard, linked as the link and unlink steps say, is not freed while it is inside. |
| `EpochMachine.NothingLost` | RECIPE/P-ART/Epoche.cpp:74-116 | Every node ever linked is still linked, unlinked and about to be marked, waiting in a label, or freed. |
| `EpochCalls.CleanupIsExact` | RECIPE/P-ART/Epoche.cpp:81-116 | A whole cleanup, among all other threads: it looked at every thread's epoch, the labels older than the least it met are gone and their nodes freed and counted, and every other label is as it was. |
| `EpochMachine.FreedOnce` | RECIPE/P-ART/Epoche.cpp:104-108 | No node is freed twice: it was not freed before, and the label being cleaned lists it once. |
| `ArtNode.GetChild` | RECIPE/P-ART/N.cpp:266-287 | The search of each layout returns the child bound to the byte. |
| `ArtNode.Insert` | RECIPE/P-ART/N48.cpp:7-38 | insert of each layout binds one more byte, or fails exactly when the layout is full. |
| `ArtNode.Remove` | RECIPE/P-ART/N16.cpp:76-91 | remove of each layout unbinds the byte, unless the node is due to shrink and is not forced. |
| `ArtNode.Change` | RECIPE/P-ART/N.cpp:145-170 | change of each layout redirects one byte. |
| `ArtNode.CopyTo` | RECIPE/P-ART/N16.cpp:30-37 | copyTo keeps the byte-to-child map, and the copy fits. |
| `ArtNode.CopySlots` | RECIPE/P-ART/N4.cpp:37-45 | The copy of a 4- or 16-way node, holes and flipped keys included. |
| `ArtNode.CopyBytes` | RECIPE/P-ART/N48.cpp:40-48 | The copy of a 48- or 256-way node, byte by byte. |
| `ArtNode.InsertCompact` | RECIPE/P-ART/N.cpp:197-220 | Compacting a full node with holes always leaves room for the new child and keeps the map. |
| `ArtNode.InsertGrow` | RECIPE/P-ART/N.cpp:172-195 | Growing keeps the map, happens exactly when the node is full, and the bigger node is not small for its kind. |
| `ArtNode.InsertChild` | RECIPE/P-ART/N.cpp:222-264 | Binds the byte through compaction or growth; a 256-way node is never copied; node sizes stay above their floors. |
| `ArtNode.RemoveShrink` | RECIPE/P-ART/N.cpp:319-343 | Shrinking keeps the map, fits, and happens only at the threshold. |
| `ArtNode.RemoveChild` | RECIPE/P-ART/N.cpp:345-369 | Unbinds the byte; no 16-, 48- or non-root 256-way node falls to its floor, so only 4-way nodes ever have two children. |
| `ArtNode.AnyChild` | RECIPE/P-ART/N4.cpp:82-94 | Returns a leaf child if there is one, else some child. |
| `ArtNode.SecondChild` | RECIPE/P-ART/N4.cpp:96-107 | Of a 4-way node with two children, returns the other one. |
| `ArtNode.GetCount` | RECIPE/P-ART/N4.cpp:127-135 | Counts the children, up to three. |
| `ArtPrefix.CheckPrefix` | RECIPE/P-ART/Tree.cpp:506-529 | On a node in order or in the middle of a split or merge: fails exactly if the key is too short or a stored byte differs, otherwise says where it goes on and whether bytes were skipped unseen. |
| `ArtPrefix.JoinOk` | RECIPE/P-ART/N.cpp:436-448 | addPrefixBefore stores the first bytes of node prefix, key byte and child prefix joined. |
| `ArtPrefix.SetPrefixOk` | RECIPE/P-ART/N.cpp:422-434 | setPrefix stores the first min(4, n) bytes. |
| `ArtTree.FindThrough` | RECIPE/P-ART/Tree.cpp:36-71 | Keys below a node are found from the root exactly as from the node. |
| `ArtSteps.ForkStep` | RECIPE/P-ART/Tree.cpp:286-342 | Putting a new node between a pointer and what it led to, prefix cut, adds exactly the new key. |
| `ArtSteps.MergeStep` | RECIPE/P-ART/Tree.cpp:430-492 | Letting a two-child node give way to its second child, prefixes joined, removes exactly the key. |
| `ArtSteps.SwapStep` | RECIPE/P-ART/N.cpp:172-220 | Replacing a node by a copy of another size changes exactly the one binding. |
| `ArtSteps.SetStep` | RECIPE/P-ART/N.cpp:222-264 | Rebinding one byte in place changes exactly the keys below it. |
| `Art.Tree.constructor` | RECIPE/P-ART/Tree.cpp:22-25 | A new tree stands for the empty map. |
| `Art.Tree.Reopen` | RECIPE/P-ART/Tree.cpp:22-25 | Any persisted state, torn or not, that stands for a map reopens as a tree for that map. |
| `Art.Tree.Lookup` | RECIPE/P-ART/Tree.cpp:36-71 | On a tree in order lookup answers wrongly if and only if, among the stored keys, exactly one extends the given one, properly; the given one ends one byte after a point where stored keys part; and no two such points on its way are more than five bytes apart. On a torn tree it is wrong if and only if the key is stored and a prefix that is too long leads it astray, or the above holds and nothing on the way is skipped. |
| `ArtTorn.TornMisreadIff` | RECIPE/P-ART/Tree.cpp:36-71 | A torn tree misreads no key that the tree in order would not. |
| `ArtTorn.WithinLosesNone` | RECIPE/P-ART/Tree.cpp:506-529 | In a tree torn nowhere by more than the four stored bytes lookup loses no stored key. |
| `ArtTorn.OneTornWithin` | RECIPE/P-ART/Tree.cpp:310-336 | With one node torn, as a crash in a split leaves it, that node alone decides whether this is so. |
| `ArtLost.CrashHidesKey` | RECIPE/P-ART/Tree.cpp:310-336 | It is not always so: a concrete crash state in which a stored key is led past its end. |
| `ArtLost.AfterFirstStore` | RECIPE/P-ART/Tree.cpp:288-310 | That state is the one after the first store of a split behind the four stored bytes. |
| `ArtShort.MisreadIff` | RECIPE/P-ART/Tree.cpp:36-71 | The same condition on the stored keys decides whether the descent takes a leaf unseen: it depends on the keys and not on how the tree came about. |
| `ArtShort.NodeForks` | RECIPE/P-ART/Tree.cpp:58-66 | At every node but the root two stored keys part. |
| `ArtShort.NoForkBetween` | RECIPE/P-ART/Tree.cpp:58-66 | Between a node and the next no stored keys part. |
| `ArtShort.NeverMisread` | RECIPE/P-ART/Tree.cpp:58-66 | So lookup is right for every key that no stored key properly extends. |
| `ArtShort.MisreadIsShort` | RECIPE/P-ART/Tree.cpp:58-66 | A misread key is a proper prefix of a stored key. |
| `ArtShort.ShortKeyMisread` | RECIPE/P-ART/Tree.cpp:58-66 | With one two-byte key stored, lookup of its first byte returns that key's value. |
| `Art.Tree.AnyKey` | RECIPE/P-ART/N.cpp:504-516 | Returns a stored key below the node. |
| `Art.Tree.Mend` | RECIPE/P-ART/Tree.cpp:531-563 | The repair rebuilds a prefix that does not fit the level of its node from a key below it, and leaves the map and all other nodes alone; on a node in order it does nothing. |
| `ArtTorn.Restored` | RECIPE/P-ART/Tree.cpp:536-563 | Once every prefix fits its level again, the tree is in order and stands for the same map. |
| `Art.Tree.CheckPrefixPessimistic` | RECIPE/P-ART/Tree.cpp:565-594 | Compares the whole compressed path with the key, stored or not, and returns where they part, the byte there and the stored rest. |
| `Art.Tree.Insert` | RECIPE/P-ART/Tree.cpp:259-383 | From any state, torn as it may be, insert goes through if and only if the key is not empty and no stored key is a prefix of it or has it as a prefix, which the code asserts; then exactly that key is added. The log goes on store by store, neighbours differing in one pointer or one prefix, and every state in it, repairs included, stands for the old map up to one store and for the new map from there on. |
| `Art.Tree.Remove` | RECIPE/P-ART/Tree.cpp:385-503 | On a tree in order remove unbinds the key and nothing else, for every key; the log goes on store by store, and every state persisted on the way stands for the new map. |
| `Art.Tree.MergeNode` | RECIPE/P-ART/Tree.cpp:429-492 | The merge of a two-child node meets a 4-way node and keeps levels and stored prefixes right, with a crash between its two stores. |
| `ArrayStack.StepKeeps` | ralloc/old/ArrayStack.hpp:116-170 | Every step keeps the stack invariant and changes the contents like the push or pop it stands for. |
| `ArrayStack.RunInv` | ralloc/old/ArrayStack.hpp:116-170 | The invariant holds in every state of every run. |
| `ArrayStack.StackIsSequential` | ralloc/old/ArrayStack.hpp:116-170 | In every run each step acts on the contents like a sequential LIFO push or pop, and a pop returns the top element, pending or not. |
| `ArrayStack.CallIsSequential` | ralloc/old/ArrayStack.hpp:116-150 | A push that is done put its value on top exactly once; a pop that is done took the top off exactly once and answers with it, or did nothing and met the stack empty; a call that is not done has done nothing. |
| `ArrayStack.EmptyWasEmpty` | ralloc/old/ArrayStack.hpp:133-150 | A pop that answers "empty" loaded the top of an empty stack during that very call. |
| `ArrayStack.FinishIsCurrent` | ralloc/old/ArrayStack.hpp:161-170 | A helper's write takes effect only for the present top. |
| `ArrayStack.CountersGrow` | ralloc/old/ArrayStack.hpp:161-170 | Slot counters only grow. |
| `ArrayQueue.StepKeeps` | ralloc/old/ArrayQueue.hpp:118-185 | Every step keeps the queue invariant and changes the contents like the enqueue or dequeue it stands for. |
| `ArrayQueue.RunInv` | ralloc/old/ArrayQueue.hpp:118-185 | The invariant holds in every state of every run. |
| `ArrayQueue.QueueIsSequential` | ralloc/old/ArrayQueue.hpp:118-185 | In every run each step acts on the contents like a sequential FIFO enqueue or dequeue, and a dequeue returns the oldest element, also when it is still only in the rear word. |
| `ArrayQueue.CallIsSequential` | ralloc/old/ArrayQueue.hpp:118-170 | A push that is done put its value at the end exactly once; a pop that is done took the oldest element off exactly once and answers with it, or did nothing and met the queue empty; a push that gives up met the queue full; a call that is not done has done nothing. |
| `ArrayQueue.EmptyWasEmpty` | ralloc/old/ArrayQueue.hpp:144-170 | A pop that answers "empty" loaded the rear word during that very call while the queue was empty. |
| `ArrayQueue.FullWasFull` | ralloc/old/ArrayQueue.hpp:118-136 | A push that finds the queue full loaded the front word during that very call while all slots but one were taken. |
| `ArrayQueue.FinishIsCurrent` | ralloc/old/ArrayQueue.hpp:173-185 | A stale helper write never takes effect. |
| `ArrayQueue.CountersGrow` | ralloc/old/ArrayQueue.hpp:173-185 | Slot counters only grow. |

## Left out

- Ralloc: large blocks, realloc, calloc and the size-class table in the concurrent machine; block size and count per class are parameters. Progress: the retry paths are proved safe, not lock-free.
- Ralloc: in `RallocImage` growing the region is one persisted step, and descriptor fields are unbounded numbers.
- Ralloc: region files, remapping and pointer encodings; the superblock region is taken to start at a multiple of the superblock size, as `desc_lookup` assumes.
- Ralloc recovery: user-supplied filter functions; the default byte-by-byte filter is modelled, with memory words keyed by address, so overlapping unaligned words written by the sweep are not.
- Ralloc recovery: where an assertion of the sweep fails the model goes on; `RecoveryIff` counts it as a failure.
- Masstree: underflow, merge and `del` beyond the in-place removal; string `scan`; scans in the middle of a split, beyond showing exactly when order is lost.
- Masstree: locks and version words are in `MassRead` only; in the tree model an operation runs alone between crashes, and a recovery that fails to get a lock is not modelled.
- Masstree: keys and values are unbounded numbers; the store of a slot's key and value counts as one step of the tree model (two in `MassRead`).
- MassLayers.StringTree.Put: its log has one state for each store to a layer; the states inside the trees are in `MassForest`, layer by layer (`PutSlot`, `OutOfSight`), not in one log.
- MassRead.ValidatedRead: not for a leaf whose split a crash left half done, until it is repaired; `leaf_insert` unlinks the sibling of such a leaf without its lock.
- Permuter: `rotate`, which nothing calls.
- CLHT: keys and sizes are unbounded numbers, so the mask has no top bit; statistics, garbage collection of old tables and resize triggers are out; `get` runs without concurrent writers.
- Art.Tree.Insert: returns false where the code aborts or reads past a key, as said above.
- Art.Tree.Remove: for a tree in order only; on a torn one the code joins prefixes without repairing them first.
- P-ART: operations run one at a time, and the stores inside one node count as one; range lookup and locks are out. Nodes are values in a heap that methods update, arrays are sequences.
- Epochs: the destructor and the read-only guard; thread registration.
- ArrayQueue and ArrayStack: 32-bit counters are unbounded; flushes are not modelled; a push to a full stack or queue aborts, as in the code.
- Weak memory orders throughout.
