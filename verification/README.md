# Models of five programs

This directory holds Dafny models of five programs of the repository, with proofs of what each is for.

* **The keyed database of apue.2e/db** (`AsciiFields`, `DbRecords`, `DbBytes`, `DbMap`, `Db`, and the `DbProtocol`
  files). Two files hold 137 hash chains and one free list, all threaded through six-character pointer fields. The
  model has three layers: the bytes of the index file, the linked records, and a map from keys to data. `Db.Database`
  is the library as one process uses it, its methods changing the file bytes and the fields of `DB`. `DbProtocol` is
  the library as any number of processes use it at once: a state machine whose steps are single file operations, locks
  and unlocks. `DbProtocolBytes` carries the bytes through the same steps.
* **C4.5 tree building and classification** (the `C45` files, `Weighted`, `Ranges`, `BitSets`, `Subset`,
  `ClassSearch`, `Classify`, `TreeIO`, `BestTree`). `C45Build.Builder` permutes the global items and weights in place
  while it grows a tree; `Subset.Tables` are the frequency tables and value sets that EvalSubset merges;
  `TreeIO.TreeFile` writes and reads trees as bytes; `BestTree.Trials` chooses windows and grows trees from them.
* **C4.5 rule pruning and selection** (`PruneRule`, `SiftCosts`, `SiftRules`).
* **k-means, batch phase** (`KMeans`).
* **LVQ_PAK's nearest-neighbour search and hit lists** (`Knn`, `Hitlist`).

`dafny verify dfyconfig.toml` checks everything.

## How the source is read

* The macros and types of `R8/Src/defns.i`, `types.i` and `buildex.i` (ForEach, In, SetBit, Class, DVal, CVal, Round,
  None, Unknown) have the meaning those headers give them.
* `float` and `double` are exact reals. Logarithms and the information measures built on them (TotalInfo,
  DiscrKnownBaseInfo), AddErrs, TableProb and ExceptionBits are arbitrary functions, so that what is proved holds
  whatever they compute. Random choices are arbitrary choices.
* `err_dump`, `err_sys` and `err_quit` end the process; the model returns `Dead` and still says what the files hold.
  The file locks give mutual exclusion, shared for readers and exclusive for writers.
* A `NULL` or unfound result is `None` where the source tells the two apart.

## What the proofs brought out

* **db_store** demands a key without separator. With one in it the record could never be read again
  (`AsciiFields.ParseRoundTrip`). A key too long for the index buffer is printed into it before the length of the
  record is checked (`Db.BufferHoldsKeys`): the model then dies with `overrun` set, and what the library does is
  undefined. A store that replaces data by data of another length deletes first, so that when the append then dies the
  key is gone (`Db.Database.Store`); with many processes such a store counts as a deletion in the history.
* **db_nextrec** takes an all-blank key for a deleted record and skips it (`DbRecords.ScanIsComplete`).
* **EvalSubset** sets MINOBJS to 1 and returns early for an attribute without known values. The promise at the head of
  FormTree, no split unless two subsets have MINOBJS items, then fails: `C45Inputs.MinimumLost` is an input on which a
  branch with a single item is chosen although MINOBJS is 2. MINOBJS drops exactly when some node that is evaluated is
  reached by items of which nothing is known of an attribute that is to be grouped (`C45Minimum.Drops`,
  `C45Build.Builder.FormTree`); so the promise holds when no item has an unknown value of such an attribute.
* **EvalSubset** looks for the first class of a block with weight at least 0.1 without a bound, and leaves the row of
  a block that has none; the model then returns `None`. Whether it does so follows from the labels of the represented
  values (`Subset.SearchStays`, `Subset.Tables.EvalSubset`): exactly when a block that is left and not the last has no
  such class (`ClassSearch.StaysFinally`); so always with two values without one, and never with no subset tests, with
  at most five classes, or where no value is unknown and the weights are 1. `C45Inputs.SearchRunsOff` is an input for
  FormTree.
* **Satisfies** keeps an outcome in a char. The conditions on an attribute are judged as intended exactly when it has at
  most 127 values (`PruneRule.DiscreteJudged`, `PruneRule.GroupsJudged`).
* **InTree** is undefined on a subset test for an attribute that does not exist and on a node with 0x7FFF branches,
  which its short counter never passes (`TreeIO.EndlessNode`); `TreeIO.ReadableFiles` says which files it reads. At
  the end of a file a node reads as one with -1 branches, which is why it always ends (`TreeIO.EmptyHasNoForks`).
* **consult** reads a tree before it knows the values of an attribute declared by their number alone. A grouped test on
  such an attribute with eight values or more is not read back (`TreeIO.TwoTables`, `TreeIO.UndeclaredValues`).
* **kmeans** divides by zero for an empty cluster. The model has a value that is not a number, and so needs no
  assumption that clusters keep their points: an emptied cluster stays empty (`KMeans.EmptyStaysEmpty`) and the total
  still descends.
* **find_winner_knn** returns the first of equally near entries for k = 1 and the last for larger k
  (`Knn.FindWinnerKnn`).
* **clear_hitlist** does not reset the count of entries; `entries` is the number of labels plus what clearings left
  (`Hitlist.HitList.Clear`).
* **Iterate** reads past the items when the window is larger than their number; the model then returns `None`.
* **ConstructRuleset** copies an uninitialised selection for a class whose search meets none that costs less than
  1E10. It requires, for every class with rules, that the empty selection costs less, or that any selection does when
  the class has at most ten rules.

## Model

| member | source | states |
|---|---|---|
| `AsciiFields.PtrField` | apue.2e/db/db.c:621-633 | A pointer up to PTR_MAX printed into its six-character field fills exactly that field, and reading the field back gives the pointer. |
| `AsciiFields.LenField` | apue.2e/db/db.c:568-614 | The length of an index record printed into its four-character field fills exactly that field and reads back unchanged. |
| `AsciiFields.ParseRoundTrip` | apue.2e/db/db.c:344-418 | Splitting the text of an index record at its separators gives back the key, data offset and data length it was written from, exactly when the key holds no separator; a key with one makes the record unreadable. |
| `DbBytes.ReadPtrImage` | apue.2e/db/db.c:324-334 | In an index file whose bytes are the slots and records of the linked structure, the six bytes at any slot or record read as that pointer. |
| `DbBytes.DecodeImage` | apue.2e/db/db.c:344-418 | Decoding the bytes at any record offset gives the pointer, key, data offset and data length of that record, and the bytes read end where the next record begins or the file ends. |
| `DbBytes.RewriteImage` | apue.2e/db/db.c:568-614 | Writing a record of the same length over an old one leaves every other slot and record as it was: the records still tile the file. |
| `DbBytes.WriteLinkImage` | apue.2e/db/db.c:621-633 | Writing a pointer into a record changes that pointer and no other byte of any record. |
| `DbBytes.AppendImage` | apue.2e/db/db.c:568-614 | Appending a record adds it at the old end of the file, after FIRST_RECORD, and the records still tile the file. |
| `DbBytes.EmptyImage` | apue.2e/db/db.c:146-160 | The bytes db_open writes into a new index file are the free list and 137 chains, all empty. |
| `DbRecords.ViewIsDetermined` | apue.2e/db/db.c:259-301 | The map from keys to data depends on nothing but the pointers, records and data in the files. |
| `DbRecords.DetachedMap` | apue.2e/db/db.c:464-525 | Taking a record out of its list keeps the files in order: the map loses the key if the list was a chain and is unchanged if it was the free list. |
| `DbRecords.PushedMap` | apue.2e/db/db.c:640-748 | Putting a loose record at the front of a list keeps the files in order: the map gains the key if the list is the chain the key hashes to and is unchanged if it is the free list. |
| `DbRecords.ReplacedMap` | apue.2e/db/db.c:734-740 | Overwriting the data of a live record by data of the same length changes the map at its key alone. |
| `DbRecords.WipedMap` | apue.2e/db/db.c:470-489 | Blanking the data of a loose record leaves the map as it was. |
| `DbRecords.FreedMap` | apue.2e/db/db.c:464-525 | All the writes of a deletion together leave the files in order, with every list acyclic and ending in 0, the extents disjoint, and the map without the key. |
| `DbRecords.StoredMap` | apue.2e/db/db.c:675-701 | A record filled with a new key and data and put at the front of its chain adds exactly that entry to the map. |
| `DbRecords.ScanIsComplete` | apue.2e/db/db.c:838-877 | The records a scan from the first record still has to return are exactly those of the stored keys that are not all blanks, one record a key, each with the stored data. |
| `DbRecords.EmptyConsistent` | apue.2e/db/db.c:134-163 | A new database is in order and its map is empty. |
| `Db.Database.Create` | apue.2e/db/db.c:85-166 | A database created by db_open is in order, holds no key and is rewound. |
| `Db.Database.ReadPtr` | apue.2e/db/db.c:324-334 | Reads the pointer stored at a slot or record. |
| `Db.Database.WritePtr` | apue.2e/db/db.c:621-633 | Dies exactly when the pointer exceeds PTR_MAX, leaving the file alone; otherwise changes that pointer and nothing else. |
| `Db.Database.ReadIdx` | apue.2e/db/db.c:344-418 | Reads a record in full and leaves the file position at the next one; reports the end of the file exactly when no record is there. |
| `Db.Database.WriteIdx` | apue.2e/db/db.c:568-614 | Dies exactly when the pointer or the length of the record is out of range, leaving the file alone, and has overrun the index buffer before exactly when that does not hold the text and its null character; otherwise writes the record in place or at the end. |
| `Db.BufferHoldsKeys` | apue.2e/db/db.c:190-195 | The buffer holds a record if and only if its key, data offset and data length have at most IDXLEN_MAX - 2 characters together; never for a key longer than IDXLEN_MAX - 4. |
| `Db.Database.ReadDat` | apue.2e/db/db.c:425-435 | Returns the data without its newline, or fails exactly when the extent is not in the file or does not end in one. |
| `Db.Database.WriteDat` | apue.2e/db/db.c:532-560 | Writes the data and a newline over the extent or at the end of the data file, and records where. |
| `Db.Database.HashKey` | apue.2e/db/db.c:307-316 | Computes the weighted character sum modulo the table size, with the wrap-around of unsigned long. |
| `Db.Database.FindAndLock` | apue.2e/db/db.c:260-301 | Finds the key exactly when the map has it, and then holds its record, the record's place on its chain and the offset of the pointer to it. |
| `Db.Database.DoDelete` | apue.2e/db/db.c:464-525 | Removes the current record's key from the map and nothing else, although the record is on the free list and on its chain between two of the writes. |
| `Db.Database.Fetch` | apue.2e/db/db.c:234-253 | Returns the data stored under the key, or nothing when the map has no such key; changes no file. |
| `Db.Database.Delete` | apue.2e/db/db.c:441-456 | Returns 0 or -1 as the map has the key or not, and removes it. |
| `Db.Database.FindFree` | apue.2e/db/db.c:755-807 | Finds a record exactly when the free list has one of that key and data length, takes it off the list and leaves everything else. |
| `Db.Database.AppendRecord` | apue.2e/db/db.c:677-690 | Adds the entry by appending data and record; dies exactly when the new record would be too long or lie beyond PTR_MAX, and then the map is unchanged. |
| `Db.Database.Reuse` | apue.2e/db/db.c:691-701 | Adds the entry in a record taken from the free list; no record appears and none is lost. |
| `Db.Database.StoreMissing` | apue.2e/db/db.c:663-701 | Stores a key the map lacks, reusing a free record when one fits and appending otherwise. |
| `Db.Database.StoreExisting` | apue.2e/db/db.c:702-741 | Stores new data under a key the map has: over the old data when the lengths agree, by deletion and appending otherwise; if the append dies the key is left deleted. |
| `Db.Database.Store` | apue.2e/db/db.c:640-748 | Through all store cases the return code is 0, 1 or -1 exactly as the map and the flag dictate and the map changes by that entry or not at all; a store dies exactly under the stated limits, having overrun the index buffer exactly when that does not hold the new record, and then it is stated what the map has become. |
| `Db.DeletePlan` | apue.2e/db/db.c:464-525 | The three pointer writes of a deletion, in their order, give the pointers of the files with the record moved to the free list, even when the record is next to the free list head or to itself. |
| `Db.Database.Rewind` | apue.2e/db/db.c:815-829 | Puts the position at the first record, so that every record is still to come. |
| `Db.Database.NextRec` | apue.2e/db/db.c:838-877 | Returns the key and data of a live record not yet returned and leaves exactly the others, or nothing exactly when none is left. |
| `Db.Step` | apue.2e/db/db.c:234-748 | One operation answers and changes the map as the specification on maps says. |
| `Db.Run` | apue.2e/db/db.c:234-748 | Over every sequence of fetches, deletes and stores, every answer is the one a map would give; a run stops early only at a store that dies, with the files still in order. |
| `DbProtocolRuns.AdvanceKeeps` | apue.2e/db/db.c:234-807 | Every single file, lock or unlock step of any process keeps the invariant of the interleaved system. |
| `DbProtocolRuns.BeginKeeps` | apue.2e/db/db.c:234-242 | An idle process called with any operation keeps the invariant. |
| `DbProtocolRuns.InitialInv` | apue.2e/db/db.c:85-166 | Idle processes on files in order satisfy the invariant. |
| `DbProtocolRuns.StepKeeps` | apue.2e/db/db.c:234-807 | Every step keeps the invariant, and changes the history and the map only by one operation of the stepping process, entered with the answer a map would give while it holds its chain lock. |
| `DbProtocolRuns.LegalLogGrows` | apue.2e/db/db.c:234-748 | Entering an operation with the answer of the current map extends a legal sequential history to a legal one. |
| `DbProtocolRuns.RunsAreAtomic` | apue.2e/db/db.c:260-301 | In every state of every run by any number of processes, the history of completed operations is one a sequential map could have produced, and each operation took effect in a single step. |
| `DbProtocolRuns.InnerLocksNeverWait` | apue.2e/db/db.c:755-807 | A process that holds the free list lock or an append lock can always take its next step. |
| `DbProtocolRuns.ChainHolderMoves` | apue.2e/db/db.c:260-301 | When some process holds a chain lock, some process can move. |
| `DbProtocolRuns.NoDeadlock` | apue.2e/db/db.c:260-301 | Whenever a process is in the middle of an operation, some process can take a step. |
| `DbProtocolRuns.QuiescentState` | apue.2e/db/db.c:464-525 | When nobody is in an operation the files are in order and show the map of the history. |
| `DbProtocolRuns.QuiescentRecords` | apue.2e/db/db.c:464-525 | Then a record on no list was lost by a process that died holding it. |
| `DbProtocolBytes.AdvanceOnFile` | apue.2e/db/db.c:324-633 | The bytes each step writes turn the file image of one state into that of the next. |
| `DbProtocolBytes.ReadsAreBytes` | apue.2e/db/db.c:324-418 | Every pointer and record a step reads from the abstract state is what the bytes at that offset decode to. |
| `DbProtocolBytes.FilesStayWhole` | apue.2e/db/db.c:568-614 | In every state of every run the index file is exactly its slots and records, without gap or overlap. |
| `BitSets.InWithBit` | R8/Src/subset.c:103 | Setting a bit adds that value to the set and no other. |
| `BitSets.InUnion` | R8/Src/subset.c:136-140 | The byte-wise or of two sets holds exactly the values of either. |
| `C45Build.Builder.Swap` | R8/Src/build.c:512-526 | Exchanges two items with their weights. |
| `C45Build.Builder.constructor` | R8/Src/build.c:56-115 | Allocates the tables for any items with zero weights and unmarked attributes, and sets MultiVal exactly when subset tests are used or every attribute not ignored has very many values. |
| `C45Build.Builder.InitialiseWeights` | R8/Src/build.c:125-134 | Gives every item weight 1. |
| `C45Build.Builder.Group` | R8/Src/build.c:402-476 | Moves the items of branch v to the front of the stretch and returns where they end, permuting only the stretch. |
| `C45Build.Builder.CountItems` | R8/Src/build.c:487-501 | Returns the total weight of the stretch; the shortcut taken when all values are known gives the same. |
| `C45Build.Builder.CountClasses` | R8/Src/build.c:177-198 | Counts the weight of each class and finds the first class of greatest weight. |
| `C45Tests.BranchRestored` | R8/Src/build.c:344-358 | Dividing the weights back after the recursive calls and regrouping returns every item to the weight it had, up to a permutation of the two parts. |
| `C45Tests.StillDivided` | R8/Src/build.c:338-364 | After any branch has been grown the remaining items are still divided by the test as before. |
| `C45Tests.BranchesCover` | R8/Src/build.c:313-364 | The branches of a test that decides every item take up the whole known weight. |
| `C45Build.Builder.GrowBranch` | R8/Src/build.c:338-364 | Grows one branch and restores items and weights; the branch's weight is its known weight plus its share of the unknown weight. It cannot be grown only where the tree of its share of the items cannot be formed. |
| `C45Build.Builder.GrowBranches` | R8/Src/build.c:313-367 | The branches' weights add up to the node's, and items, weights, flags and marks are restored. At least two branches have MINOBJS items: as many as before when no grouped attribute has an unknown value among the items. |
| `C45Build.Builder.FormTree` | R8/Src/build.c:162-388 | Terminates with the stretch a permutation of its entry contents in which every item carries its entry weight, and returns a tree of which every node, at every depth, carries the weight, class distribution and errors of the items that reach it. A node reached by items of one class, or by too few, is a leaf; any other branches on the first of the most worthwhile attributes, by the groups evaluated or the greatest value not above the bar evaluated, or on none exactly when none is worthwhile, and is made a leaf again exactly when its branches make as many errors. MINOBJS drops to 1 exactly when some node that is evaluated is reached by items of which nothing is known of a grouped attribute, so never when no grouped attribute has an unknown value; while it stays, two branches have that many items. No tree is returned when the search for classes leaves its row at the node, and only where it does so at a node reached along tests chosen in this way; there is one when no value is unknown and the weights are 1, with no subset tests, or with at most five classes. |
| `C45Minimum.DropsPerm` | R8/Src/build.c:313-367 | Whether MINOBJS drops while a tree is formed depends on which items reach its nodes and not on their order. |
| `C45Minimum.PastStep` | R8/Src/build.c:338-364 | Branch by branch, what each leaves of MINOBJS adds up to the drop at the first branch with such a node. |
| `C45Minimum.GreedyPerm` | R8/Src/build.c:213-274 | That every node branches on the first of the most worthwhile attributes does not depend on the order of the items either. |
| `C45Minimum.NodeGreedy` | R8/Src/build.c:213-388 | A node that carries its items and whose test is chosen so, with branches of which all nodes are, is such a tree. |
| `C45Minimum.FailsThere` | R8/Src/build.c:338-364 | Where a branch cannot be grown, the path to the node that fails goes through the test chosen and that branch. |
| `C45Choice.PureLeaf` | R8/Src/build.c:200-208 | The most frequent class has all the weight exactly where the items are of one class. |
| `C45Choice.CompleteNotBlank` | R8/Src/subset.c:50-66 | Where no item has an unknown value of a grouped attribute, none of them makes MINOBJS drop. |
| `C45Choice.OnesHaveClass` | R8/Src/subset.c:117-118 | Where all weights are 1, every represented value has a class. |
| `C45Choice.TwoKnown` | R8/Src/subset.c:58-59 | The known weight is at least that of any two values. |
| `C45Choice.TwoLost` | R8/Src/subset.c:117-118 | Two represented values without a class of weight 0.1 always make the search for the classes of the values leave its row. |
| `C45Inputs.MinimumLost` | R8/Src/subset.c:50-66 | Four items and MINOBJS 2: because nothing is known of a grouped attribute, the tree formed is a test of whose two branches one has a single item. |
| `C45Inputs.FourTree` | R8/Src/build.c:162-388 | Every such tree of the four items is a test with branches of weight 1 and 3. |
| `C45Inputs.SearchRunsOff` | R8/Src/subset.c:117-118 | Fifteen items, one attribute of three values and MINOBJS 2: two of the values have six classes of weight 0.09 each, and no tree can be formed. |
| `C45Inputs.FifteenLost` | R8/Src/subset.c:117-118 | The fifteen items are not of one class nor too few, and the search for the classes of the values leaves its row. |
| `C45Formed.TestFormed` | R8/Src/build.c:331-388 | A node whose branches are formed from the parts of its items is formed from its items. |
| `C45Build.Builder.ChooseTest` | R8/Src/build.c:213-278 | The test chosen is that of the first of the most worthwhile attributes, no test exactly when none is worthwhile; the choice fails exactly when the search for classes leaves its row for some grouped attribute. Under the test at least two branches get MINOBJS known items, MINOBJS being 1 from the first grouped attribute on of which nothing is known. |
| `C45Build.Builder.BestAttribute` | R8/Src/build.c:252-274 | The first attribute of the greatest worth above -Epsilon among those with a gain; none exactly when there is no such worth. |
| `C45Build.Builder.ComputeFrequencies` | R8/Src/discr.c:66-102 | Fills the table with the weight of every value and class and every value's total. |
| `C45Build.Builder.EvalDiscreteAtt` | R8/Src/discr.c:19-54 | The gain and information are those of the table of values and classes, and a test with a gain divides the items into at least two branches of MINOBJS items. |
| `C45Cuts.DiscreteGainReady` | R8/Src/info.c:100-139 | A gain above -Epsilon means that two values have MINOBJS items each. |
| `C45Build.Builder.EvalSubsetAtt` | R8/Src/subset.c:33-295 | Fails exactly when the search for classes leaves its row. The gain and information are those of the table of the groups returned, or the information that of all values when no two were merged; a test with a gain divides the items into at least two groups of MINOBJS items. MINOBJS drops to 1 exactly when nothing is known of the attribute. |
| `C45Cuts.SubsetReady` | R8/Src/subset.c:33-295 | Groups that partition the values and of which two are large enough make a test that decides every item. |
| `C45Build.Builder.EvalContinuousAtt` | R8/Src/contin.c:28-168 | The threshold is that of the first cut of greatest gain among those tried, the gain being that of the class weights unknown, below and above it, less the cost of the number of cuts tried; there is none exactly when no cut gains more than the cost or too few values are known. A threshold with a gain has MINOBJS known items on either side; the items are only permuted. |
| `C45Thresholds.ThresholdGainIs` | R8/Src/contin.c:28-168 | The items determine the gain, information and threshold found, however the sort orders those with equal values. |
| `C45Thresholds.CutAlike` | R8/Src/contin.c:99-131 | A cut tried in one sorted order of the items is tried in every other, with the same gain. |
| `C45Thresholds.NoMoreCuts` | R8/Src/contin.c:108-112 | Leaving the scan once the lower side is too heavy misses no cut. |
| `C45Thresholds.SidesHeld` | R8/Src/contin.c:99-122 | The tables kept up to date item by item give the gain of the two sides counted from scratch. |
| `C45Cuts.CutSplits` | R8/Src/contin.c:99-131 | A threshold between two neighbours of the sorted known items splits the weights as counted during the scan. |
| `C45Build.Builder.BestCut` | R8/Src/contin.c:135-146 | Finds the first cut of greatest gain above the threshold cost, or none exactly when no cut gains more than that. |
| `C45Build.Builder.CountUnknown` | R8/Src/contin.c:49-63 | The total of row 0 is the weight of the items with an unknown value. |
| `C45Build.Builder.FindCuts` | R8/Src/contin.c:83-131 | Finds the gain of every cut that is to be tried, and how many there are. Every cut with a gain has MINOBJS items on either side and the information of the weights unknown, below and above. |
| `C45Build.Builder.GreatestValueBelow` | R8/Src/contin.c:208-228 | Returns the greatest value at or below the threshold that occurs in the whole item table. |
| `C45Build.Builder.Quicksort` | R8/Src/sort.c:22-74 | Sorts the stretch in place by the attribute and permutes nothing else. |
| `C45Build.Builder.MakeTest` | R8/Src/build.c:291-311 | The test has the groups evaluated, or as its cut the greatest value of the item table that is not above the bar evaluated, and keeps the division of the items. |
| `C45Cuts.FewClasses` | R8/Src/subset.c:117-118 | With at most five classes every represented value has a class of weight 0.1, so the unguarded search for one stays in its row. |
| `Subset.Tables.Combine` | R8/Src/subset.c:308-328 | Adds row y to row x, moves the last row to y and saves both rows. |
| `Subset.Tables.Uncombine` | R8/Src/subset.c:340-354 | Puts the two saved rows back. |
| `Subset.MergeSums` | R8/Src/subset.c:33-295 | After merging two blocks every row is still the sum of the original rows of its block's values. |
| `Subset.MergePartition` | R8/Src/subset.c:33-295 | After merging two blocks the blocks and block 0 still partition the values. |
| `Subset.Tables.FormBlocks` | R8/Src/subset.c:84-110 | The blocks are the rows of the represented values in their order, block 0 stands for the others: rows and sets agree with the partition. |
| `Subset.Tables.MergeBlocks` | R8/Src/subset.c:132-144 | Merging two blocks keeps sets, rows and partition in step. |
| `Subset.Tables.MergeSingleClass` | R8/Src/subset.c:112-146 | Keeps sets, rows and partition in step. It succeeds exactly when the labels of the blocks say so before the first is looked at, leaving as many blocks as they say, and exactly when every block but the last has a class of weight 0.1 when the search ends; and then every block but the last has a class in which no later block has its whole weight, unless it has not the whole of its own. |
| `Subset.Tables.MergeInto` | R8/Src/subset.c:124-145 | The blocks left after a single-class block are those before it, without the ones of its class, the last block filling each gap. |
| `Subset.AbsorbTakes` | R8/Src/subset.c:132-144 | Merging two blocks takes the label of the second one out. |
| `ClassSearch.StaysFinally` | R8/Src/subset.c:115-146 | The search stays in the rows if and only if every block that is left but the last has a class. |
| `ClassSearch.AllStay` | R8/Src/subset.c:115-146 | When every block has a class the search stays in the rows. |
| `ClassSearch.TwoRunOff` | R8/Src/subset.c:115-146 | When two blocks have none it leaves a row. |
| `ClassSearch.QuietStays` | R8/Src/subset.c:115-146 | When nothing is merged it stays in the rows if and only if every block but the last has a class. |
| `ClassSearch.OneStays` | R8/Src/subset.c:115-146 | With one block without a class, that is among as many blocks as are left in the end, it stays in the rows if and only if that block is the last of these. |
| `Subset.UnmergedStay` | R8/Src/subset.c:115-146 | On the table before the call: where no represented value has its whole weight in the class of another one alone, it stays in the rows if and only if every represented value but the last has a class. |
| `Subset.Tables.FindBarred` | R8/Src/subset.c:177-187 | Counts the blocks with MINOBJS items and bars the first of the largest, none exactly when three are reasonable. |
| `Subset.Tables.FindBest` | R8/Src/subset.c:193-233 | Trying every pair of unbarred blocks leaves the tables as they were and finds the preferred merger. |
| `Subset.TrialsAre` | R8/Src/subset.c:193-197 | The mergers tried are those of any two blocks of which none is barred. |
| `Subset.PreferredIs` | R8/Src/subset.c:220-229 | The preferred merger is one of those tried and no later one beats it; there is one whenever a merger is forced. |
| `Subset.PreferredIsGreatest` | R8/Src/subset.c:220-229 | Where no merger reaches the gain asked for, the preferred one has the greatest value. |
| `Subset.PreferredReaches` | R8/Src/subset.c:220-229 | Where one does, the preferred merger reaches it or is worth at least as much as one that does. |
| `Subset.Tables.Climb` | R8/Src/subset.c:170-259 | Keeps sets, rows and partition in step. It stops at two blocks, or where no merger is forced and the preferred one is not worth more than what has been reached; after any merger that is the worth of the table. |
| `Subset.SettledMeans` | R8/Src/subset.c:236-241 | Where it stops with more than two blocks, and no merger reaches the gain asked for, no two unbarred blocks give a merger worth more. |
| `Subset.Tables.EvalSubset` | R8/Src/subset.c:33-295 | The final sets partition all values, the rows are the sums over them and gain and information are those of the rows, or the information that of all values when no two have been merged; at least two sets have MINOBJS items whenever there is a gain. MINOBJS is restored exactly unless nothing is known of the attribute. There is no result exactly when something is known of the attribute and the search for the classes of the represented values leaves its row: never when each has a class of weight 0.1, always when two lack one. |
| `Subset.FinalGroups` | R8/Src/subset.c:278-294 | Appending the unrepresented values as one more group completes the partition. |
| `Subset.Tables.ComputeGain` | R8/Src/info.c:100-139 | Computes the gain of the table, -Epsilon unless two values have MINOBJS items. |
| `Classify.VotesAddUp` | R8/Src/classify.c:64-167 | For any case, with unknown values, unseen values and empty leaves, the votes over all classes add up to the weight put in. |
| `Classify.VoteNonNegative` | R8/Src/classify.c:64-167 | No vote is negative. |
| `Classify.GrownIsBalanced` | R8/Src/build.c:162-388 | Every grown tree has the property the classification needs: its branches' weights add up to the node's. |
| `Classify.TrainingVotes` | R8/Src/classify.c:64-167 | Classifying the very items a tree was formed from, each with its weight, gives every class exactly the weight its items have. |
| `Classify.FractionsAddUp` | R8/Src/classify.c:159-163 | The shares in which a case with unknown value is divided add up to one. |
| `Classify.AddVotes` | R8/Src/classify.c:64-167 | Adds to every entry of ClassSum exactly the vote of that class. |
| `Classify.FindBranch` | R8/Src/classify.c:98-155 | Takes the branch the test says, or none for an unknown or unseen value. |
| `Classify.AddToAll` | R8/Src/classify.c:109-113 | Adds the votes of every branch in proportion to its weight. |
| `Classify.Category` | R8/Src/classify.c:24-52 | Returns the first class of greatest vote; the votes are not negative and add up to one. |
| `TreeIO.ShortRoundTrip` | R8/Src/trees.c:474-490 | A 16-bit number survives being written and read. |
| `TreeIO.TreeRoundTrip` | R8/Src/trees.c:411-463 | Reading the bytes of a tree with fewer than 0x7FFF branches at every node, followed by anything, gives the tree without what its leaves hide and leaves exactly the rest unread. |
| `TreeIO.TwoTables` | R8/Src/trees.c:341-347 | A program with another table of attributes reads the tree back if and only if the sets of its grouped tests are of the same size there. |
| `TreeIO.UndeclaredValues` | R8/Src/trees.c:395-397 | A grouped test on an attribute of eight values or more is not read back where its values are not known yet. |
| `TreeIO.WhatWasRead` | R8/Src/trees.c:411-463 | Conversely, whatever is read can be written, and writing it gives the bytes that were read, continued with 0xFF where the file was too short. |
| `TreeIO.ReadableFiles` | R8/Src/trees.c:411-463 | A file can be read if and only if it spells a tree, with fewer than 0x7FFF branches at every node, and a rest. |
| `TreeIO.SpelledIsRead` | R8/Src/trees.c:411-463 | What a file spells is what is read from it, also where it breaks off and spells 0xFF, so that it spells one tree. |
| `TreeIO.BrokenOffFile` | R8/Src/trees.c:411-463 | A file that breaks off after the kind of a subset node cannot be read. |
| `TreeIO.EndlessNode` | R8/Src/trees.c:455-459 | A node with 0x7FFF branches cannot be read, whatever follows it. |
| `TreeIO.EndlessFile` | R8/Src/trees.c:455-459 | A file with one such node for two classes. |
| `TreeIO.TreeFile.OutTree` | R8/Src/trees.c:321-364 | Writes exactly the bytes of a tree with fewer than 0x7FFF branches at every node. |
| `TreeIO.TreeFile.InTree` | R8/Src/trees.c:411-463 | Terminates, reads the tree the bytes spell and consumes exactly its bytes; is undefined only for a subset test on an attribute that does not exist and for a node with 0x7FFF branches, over which a short counter does not end. |
| `TreeIO.EmptyHasNoForks` | R8/Src/trees.c:411-463 | At the end of the file a node reads as one with -1 branches, so that reading stops. |
| `BestTree.Trials.FormTarget` | R8/Src/besttree.c:137-192 | The targets never exceed the class frequencies, add up to the window size or to all items, and are as level as can be: no class that could give an item has one more than a class that could take one. |
| `BestTree.SharingStep` | R8/Src/besttree.c:167-189 | Serving the least frequent class its share of what is left keeps the rest as level as can be. |
| `BestTree.Trials.FormInitialWindow` | R8/Src/besttree.c:205-228 | Terminates with the targeted number of each class at the front of a permutation of the items. |
| `BestTree.WindowHoldsTargets` | R8/Src/besttree.c:205-228 | The front of the items holds exactly the targeted number of every class. |
| `BestTree.Trials.Shuffle` | R8/Src/besttree.c:239-253 | Permutes the items. |
| `BestTree.Trials.MoveExceptions` | R8/Src/besttree.c:305-319 | Moves every misclassified item outside the window to its end, keeps the window and counts them. |
| `BestTree.Trials.Iterate` | R8/Src/besttree.c:275-351 | Terminates; every tree is formed from its window, its nodes branching on the first of the most worthwhile attributes for the items that reach them, each window but the first is the one before and misclassified items only, the last tree misclassifies nothing outside its window, and the tree returned has the fewest total errors. There is a tree for a window of at most all items when no value is unknown; with the grouped attributes known its branches keep the MINOBJS that was set. A window larger than the number of items, which the source reads beyond, gives none. |
| `BestTree.Trials.OneTree` | R8/Src/besttree.c:27-52 | The tree grown from all items: every node of it branches on the first of the most worthwhile attributes for the items that reach it, and classifying the items gives every class as many votes as it has items. There is one when no value is unknown. |
| `PruneRule.Satisfies` | R8/Src/prunerule.c:398-442 | Decides whether a case meets a condition, with the outcome cut down to a char. |
| `PruneRule.DiscreteJudged` | R8/Src/prunerule.c:415-419 | The conditions on a discrete attribute with values up to n are judged as intended, for all cases, if and only if n is at most 127. |
| `PruneRule.GroupsJudged` | R8/Src/prunerule.c:427-438 | Those on tests with n groups are if and only if n is at most 127. |
| `PruneRule.SubsetJudged` | R8/Src/prunerule.c:427-438 | Those on one such test are if and only if no value is found in a group after the 127th. |
| `PruneRule.ThresholdJudged` | R8/Src/prunerule.c:421-425 | Those on a threshold always are. |
| `PruneRule.ManyValuesAreMissed` | R8/Src/prunerule.c:398-442 | A case with a value above 127 does not satisfy the condition that requires the value, but satisfies one that requires another. |
| `PruneRule.CoveredAllBut` | R8/Src/prunerule.c:315-367 | Without one condition a rule covers what it covered and the cases that failed only that condition, for all cases and for those of another class. |
| `PruneRule.FewerCoverMore` | R8/Src/prunerule.c:45-211 | A rule with fewer conditions covers no fewer cases. |
| `PruneRule.RulePruner.Misses` | R8/Src/prunerule.c:335-344 | The early exit tells whether a case meets all kept conditions, fails exactly one and which, or fails more. |
| `PruneRule.RulePruner.FindTables` | R8/Src/prunerule.c:315-367 | Total[d] and Errors[d] are the numbers of cases, and of cases of another class, that meet all kept conditions but d, for every kept d and for none dropped. |
| `PruneRule.RulePruner.Examine` | R8/Src/prunerule.c:93-163 | Finds whether some condition is needless, and the condition whose removal gives the least pessimistic error, the last of equals. |
| `PruneRule.RulePruner.Step` | R8/Src/prunerule.c:81-173 | Drops exactly that condition, or nothing when none is needless. |
| `PruneRule.RulePruner.PruneRule` | R8/Src/prunerule.c:45-211 | Terminates with the result of greedy pruning; a rule is emitted exactly when it is accurate enough, it holds exactly the kept conditions, and its error is that of the final set. |
| `PruneRule.Setting.PruningIsUnique` | R8/Src/prunerule.c:81-173 | Greedy pruning has one result. |
| `PruneRule.Setting.NothingNeedless` | R8/Src/prunerule.c:81-173 | Dropping any one more condition would strictly raise both the pessimistic and the actual error. |
| `PruneRule.RuleCoversItsPath` | R8/Src/prunerule.c:186-210 | The rule covers every case the path it came from did. |
| `PruneRule.RulePruner.SortConditions` | R8/Src/prunerule.c:186-208 | Brings the kept conditions, and no others, to the front, whatever order Before puts them in. |
| `SiftCosts.GenerateLogs` | R8/Src/genlogs.c:26-43 | Tables of logarithms and of their sums, so that LogItemNo[n] = LogFact[n] - LogFact[n-1]. |
| `SiftCosts.FlippedCost` | R8/Src/siftrules.c:513-555 | The cost predicted for toggling a rule from the firing counts is the cost of the toggled selection computed from scratch. |
| `SiftCosts.FlipCounts` | R8/Src/siftrules.c:495-509 | Adding a rule changes firings, false positives and false negatives by the counts taken where it would decide. |
| `SiftCosts.FlopCounts` | R8/Src/siftrules.c:495-509 | Dropping a rule changes them by the counts taken where it alone decides. |
| `SiftRules.Sifter.CalculateValue` | R8/Src/siftrules.c:456-568 | For every rule of the class Value is the exact cost difference of toggling it, and the best selection so far is remembered. |
| `SiftRules.Sifter.AddRule` | R8/Src/siftrules.c:580-597 | Includes the rule and keeps Covered the number of included rules matching each item. |
| `SiftRules.Sifter.DeleteRule` | R8/Src/siftrules.c:609-626 | Drops the rule and keeps Covered the number of included rules matching each item. |
| `SiftRules.Sifter.AllCombinations` | R8/Src/siftrules.c:222-244 | Visits every choice of the listed rules, leaves RuleIn and Covered as found, and remembers a selection of least cost with that cost. |
| `SiftRules.SearchedAll` | R8/Src/siftrules.c:222-244 | When some choice costs less than the start value, the remembered selection is the cheapest of all choices. |
| `SiftRules.Sifter.BestFlip` | R8/Src/siftrules.c:421-432 | Finds the rule whose toggling lowers the cost most, or none exactly when no toggling lowers it. |
| `SiftRules.Sifter.HillClimb` | R8/Src/siftrules.c:368-443 | Terminates; every step is the toggling that lowers the cost most and lowers it strictly, it stops only where no single toggling lowers the cost, and SubsetValue is at most the final cost. |
| `SiftRules.Sifter.SpotSearch` | R8/Src/siftrules.c:334-357 | After climbs from the empty and from any other start the remembered selection costs no more than the empty one. |
| `SiftRules.Sifter.SimAnneal` | R8/Src/siftrules.c:255-323 | Whatever random moves are accepted, the walk ends and the remembered selection costs no more than the first. |
| `SiftRules.Sifter.CoverClass` | R8/Src/siftrules.c:164-211 | Chooses for the class a selection no single toggling improves, the cheapest of all when the class has at most ten rules, and touches no other class. |
| `SiftRules.Sifter.ConstructRuleset` | R8/Src/siftrules.c:47-108 | In the end the selection of every class is one no toggling improves, and the cheapest for a class of at most ten rules: covering one class does not undo another. |
| `SiftRules.ListedCovers` | R8/Src/siftrules.c:377-395 | Counting matches over the listed rules gives the cover of the selection. |
| `SiftRules.FewerCheaper` | R8/Src/siftrules.c:399-442 | Each step of the climb leaves fewer cheaper selections, so that it ends. |
| `SiftRules.CheapestIsLocallyBest` | R8/Src/siftrules.c:164-211 | A cheapest selection cannot be improved by a toggling. |
| `KMeans.CalcDistance` | kmeans/kmeans.c:23-32 | The squared distance; not a number when the centroid is not one. |
| `KMeans.ChooseAllClusters` | kmeans/kmeans.c:63-87 | Puts every point to the first of its nearest centroids, never to one that is not a number. |
| `KMeans.CalcTotalDistance` | kmeans/kmeans.c:44-61 | The sum of the squared distances of the points to their centroids, without the points in no cluster; not a number when a term is none. |
| `KMeans.TogetherIsTotal` | kmeans/kmeans.c:44-61 | With every point at a proper centroid that is the total distance. |
| `KMeans.CalcClusterCentroids` | kmeans/kmeans.c:89-130 | Every centroid becomes the mean of its points, or not a number when it has none. |
| `KMeans.MeanIsBest` | kmeans/kmeans.c:89-130 | No other value has a smaller sum of squared differences than the mean. |
| `KMeans.MeansAreBest` | kmeans/kmeans.c:89-130 | No other centroids give the same assignment a smaller total distance than the means. |
| `KMeans.NearestAreBest` | kmeans/kmeans.c:63-87 | No other assignment gives the same centroids a smaller total distance than nearest centroids. |
| `KMeans.BatchDescends` | kmeans/kmeans.c:241-291 | One batch iteration never increases the total distance. |
| `KMeans.SettledStays` | kmeans/kmeans.c:272-286 | Where no point changes, another iteration changes nothing. |
| `KMeans.EmptyStaysEmpty` | kmeans/kmeans.c:63-130 | A cluster that has lost its points never gets one again. |
| `KMeans.AssignmentChangeCount` | kmeans/kmeans.c:202-211 | The number of changes is 0 exactly when the assignments are the same. |
| `KMeans.KMeans` | kmeans/kmeans.c:213-402 | The totals never increase, so that the negative-progress branch is dead; at the end every centroid is the mean of the previous assignment's points and every point is at a nearest centroid, and on convergence the two assignments are one. |
| `Knn.PartsGrow` | lvq_pak-3.1/lvq_pak.c:128-139 | The partial sum of squares never decreases from component to component. |
| `Knn.OnlyOneWay` | lvq_pak-3.1/lvq_pak.c:144-159 | At most one list holds the first k entries in order of distance, then of index descending, with the other slots unfilled. |
| `Knn.FirstIsNearest` | lvq_pak-3.1/lvq_pak.c:38-91 | The first of them is an entry of least distance, and of those the last. |
| `Knn.PlaceIsRank` | lvq_pak-3.1/lvq_pak.c:145 | The slot found for a new entry is its rank among the entries seen. |
| `Knn.PartialDistance` | lvq_pak-3.1/lvq_pak.c:128-139 | The sum cut off at the limit is the full distance when it is within the limit and beyond the limit exactly when the full distance is. |
| `Knn.FindWinnerEuc` | lvq_pak-3.1/lvq_pak.c:38-91 | Finds the first nearest entry, or nothing when every component of the sample is masked. |
| `Knn.FindWinnerKnn` | lvq_pak-3.1/lvq_pak.c:100-169 | For k of at least 2 returns exactly the first k entries sorted by full masked distance, then by index descending, the other slots left at -1; for k of 1 the nearest entry, the first of equals. |
| `Hitlist.HitList.constructor` | lvq_pak-3.1/labels.c:274-291 | A new hitlist is empty. |
| `Hitlist.HitList.Clear` | lvq_pak-3.1/labels.c:295-308 | Empties the list but not the count of entries. |
| `Hitlist.HitList.FindHit` | lvq_pak-3.1/labels.c:324-333 | Finds the entry of the label, or none exactly when no entry has it. |
| `Hitlist.HitList.HitSwapWithPrev` | lvq_pak-3.1/labels.c:338-361 | Exchanges an entry with the one before it, links mirrored in both directions. |
| `Hitlist.HitList.AddHit` | lvq_pak-3.1/labels.c:365-405 | Returns how often the label has been hit; forward and backward links mirror each other, labels are distinct, frequencies are hit counts, the order is by frequency descending and then by time of the last hit, and entries counts the labels, and what a clearing left. |
| `Hitlist.HitList.LabelFreq` | lvq_pak-3.1/labels.c:429-438 | Returns how often the label has been hit, 0 for a label never hit. |
| `Hitlist.OnlyOneTally` | lvq_pak-3.1/labels.c:365-405 | The hits determine the list. |
| `Hitlist.TallySize` | lvq_pak-3.1/labels.c:365-405 | The list has as many entries as there are distinct labels. |
| `Hitlist.TallyNew` | lvq_pak-3.1/labels.c:383-402 | Appending a label never hit before keeps the order. |
| `Hitlist.TallyHit` | lvq_pak-3.1/labels.c:371-382 | Moving an entry up past those of smaller frequency keeps the order. |

## Left out

- apue.2e outside db/db.c: short demonstrations of system calls, terminals, daemons and signals.
- Db.Database: opening an existing database, closing, allocation failures and the statistics counters.
- Db.Database.NextRec: is modelled for one process only; its concurrent use with changes is not.
- DbProtocol: operations refused before any lock is taken (an unknown flag, a length out of range) and keys with a separator do not enter the protocol. A store that overruns the index buffer dies there like any other.
- AsciiFields.ParseRoundTrip: keys holding a newline or a null character are not excluded, since strings carry their length here.
- C45Build.Builder.FormTree: the nodes of a tree are values, not memory cells, and attributes of 0x7FFF values, over which the loops in short counters do not end, are counted without wrapping.
- Subset.Tables.EvalSubset: which groups it ends with is stated through what each merger prefers and where merging stops, not by a formula of its own.
- C45Build.Builder.ComputeFrequencies: the tables belong to the evaluation that fills them, so that stale contents of the global tables are not modelled.
- Subset.Tables: PrintSubset and the verbose tables are left out.
- TreeIO: CopyTree, TreeSize, ReleaseTree, SaveTree's file names and the value names of RecoverDiscreteNames; floats are their four bytes.
- BestTree: the loop over trials, the default window and increment, and Evaluate.
- Prune, EstimateErrors, st-thresh.c, genrules.c, makerules.c, testrules.c and the consult programs.
- PruneRule.RulePruner.SortConditions: the order of the kept conditions, since Before is not a strict order.
- PruneRule: NewRule's search for duplicates, and Redundant and IsSubset, which the pruning does not use.
- SiftRules: MakeIndex, FindDefault, FindRuleCodes and the rule strengths behind Match; the rule selection starts from the match table.
- SiftRules.Sifter.SimAnneal: the acceptance probability; every move may be accepted.
- SiftRules.Sifter.SpotSearch: the distribution of the random starts; every start may occur.
- KMeans: the online phase, which the source has commented out, cluster_diag, and the flat layout of its arrays.
- Knn: the pointer to the winning entry, which is the entry at the index, and adapt_vector.
- Hitlist: freeing memory and allocation failures.
- som_pak-3.1: its copies of the same algorithms, Sammon mapping, U-matrix drawing and PostScript output.
- All printing, option parsing and main programs; rounding of floating-point numbers.
