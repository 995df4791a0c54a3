# Kueue: a verified model of the persistent queue and its supporting data structures

The repository implements *Kueue*, a blocking message queue kept in a RocksDB
column family, together with a manager that hands out one queue per
identifier. Around it lie the data structures of the bundled RocksDB headers.
This project models the parts whose correctness is hard to see:

- **The queue under any number of threads** (`KueueThreads`, `KueueInvariant`,
  `KueueHistory`, `KueueOperations`, `KueueReplies`, `KueueAnswers`, `KueueProgress`,
  `StoreDiscipline`, `KueueWakeUp`, and runs that show what can go wrong in
  `KueueExamples`). Producers work under `putLock`, consumers under `takeLock`;
  they meet only in the atomic `count` and the condition variable. `put`, both
  `take`s, `readNext`, `erase` and
  `clear` are a transition system with one step per lock operation, assignment,
  atomic access, store call, wait or notification, with failing store calls,
  spurious and timed wake-ups, and a stop and reopening between any two steps. A
  consumer's test of the count and its wait are two steps: a producer may count its
  message between them, and the signal takes `takeLock` for that reason.
- **The queue as an object** (`Kueue`): the methods of `KueueImpl` and of the
  store below it, over byte keys, as one thread executes them undisturbed.
  `KueueLevels` connects the two views: an operation that one thread executes alone
  does what the method does, by the predicates of `KueueCalls` that both use.
- **Keys and recovery** (`KeyCodec`, `StoredKeys`, `QueueStore`): the 8-byte
  big-endian keys, their order, and what the constructor rebuilds from them.
- **The registry of queues** (`KueueManager`), and all that clients do with one
  database directory over time (`KueueClients`).
- **Interval sets** (`IntervalSets`, `IntervalLaws`, `GenericIntervals`), **sets
  of enumerators** (`EnumSets`) and **file preallocation** (`Preallocation`).

Status codes of RocksDB, the outcome of waits and the choice of the notified
waiter are parameters of the model; nothing is said about their likelihood.
A store call that returns Ok takes effect at once; one that does not changes
nothing. 64-bit arithmetic wraps explicitly.

## Where the code does less than its comments or its callers may expect

- A **wake-up can be lost**: a `take` whose store call fails, or any `readNext`,
  consumes a notification without passing it on. `KueueWakeUp.StepAwakeIff` shows
  that exactly these steps lose one, `KueueExamples.WakeUpCanBeLost` gives the runs,
  and `KueueWakeUp.NoLostWakeUp` covers all runs without them.
- **Recovery** fails for a stored range that runs past key 2^64 - 1: the queue opens
  as valid and empty although messages are stored (`Kueue.StraddlingExample`). A
  range of 2^63 messages or more is refused. `QueueStore.RecoverExactIff` states when
  recovery is exact, `KueueInvariant.ReopeningIff` what that means for a run.
- An **iterator error** during recovery is taken for an empty family. A stored queue
  is then refused, opened as empty or opened with too many messages
  (`QueueStore.LostSearchExamples`); `QueueStore.RecoverSeenExactIff` states when
  recovery is exact all the same.
- **`erase`** never looks at the count. On an empty queue it accepts the next key to be
  used and drives the count to -1 (`Kueue.EraseOnEmptyExample`); `Kueue.KueueImpl.Erase`
  states that exactly this call breaks the queue. In the thread model `erase` is given keys that `readNext`
  returned since the queue was opened.
  Its result `true` does not mean that this call removed the message: if another
  consumer was faster, the status is still Ok and nothing changes
  (`KueueExamples.EraseCanBeUnneeded`). `KueueHistory.EraseIsExact` states that this
  happens exactly if the message is gone.
- **`clear`** on an empty queue leaves the caller's status variable unassigned.
- **`take`** may return a value together with a failure status: the value was read, the
  removal then failed, and the message stays in the queue.
- **`fail_on_intersect`** accepts some intersecting intervals and refuses some disjoint
  ones: `IntervalLaws.AcceptsIntersectionIff` and `IntervalLaws.RefusesDisjointIff`,
  with `IntervalLaws.IntersectionAcceptedExample` and
  `IntervalLaws.DisjointRefusedExample`.
- Inserting a bounded interval before an **unbounded** one fills the gap between them:
  `IntervalLaws.PlainUnionIff` and `IntervalLaws.GapFilledExample`.
- **`PrepareWrite`** leaves a write uncovered when its size computation overflows:
  `Preallocation.WritableFile.PrepareWrite` and `Preallocation.OverflowExample`.
- **`put`** onto a queue of 2^63 - 1 messages makes the count negative; `Kueue.KueueImpl.Put`
  states that exactly this call breaks the queue (`Kueue.PutOverflowExample`).

## Model

| member | source | states |
|---|---|---|
| `KueueInvariant.InvKept` | include/impl/KueueImpl.h:66-243 | every action of every thread, stops and reopenings included, keeps the two-lock invariant: the locks are held by exactly the threads in their sections; `count`, `minKey`, `maxKey` and the store describe one contiguous range, corrected by the positions of the one producer and the one consumer inside their sections; what was removed is a prefix of what was accepted |
| `KueueInvariant.RunsKeepInv` | include/impl/KueueImpl.h:66-243 | the invariant holds in every state of every run of any number of threads |
| `KueueInvariant.ReachableHasInv` | include/impl/KueueImpl.h:29-243 | hence in every state reachable from a queue opened on an empty family |
| `KueueInvariant.StepKeepsLocks` | include/impl/KueueImpl.h:71-101 | mutual exclusion: after any statement exactly the threads inside a section hold its lock, the wait included |
| `KueueInvariant.PutFits` | include/impl/KueueImpl.h:71-82 | each statement of a put keeps indices, count and store consistent while any consumer stands anywhere in its own section |
| `KueueInvariant.TakeFits` | include/impl/KueueImpl.h:98-113 | each statement of a consumer keeps them consistent while any producer stands anywhere in its own section |
| `KueueInvariant.RemovesOldest` | include/impl/KueueImpl.h:102-108 | a removal that returns Ok, in take, erase or clear, always hits the oldest message, which is present and already counted |
| `KueueInvariant.RestartKeepsInv` | include/impl/KueueImpl.h:29-64 | after a stop between any two statements the constructor rebuilds exactly the stored queue |
| `KueueInvariant.ReopeningIff` | include/impl/KueueImpl.h:29-64 | after a stop in any state, reopening keeps the invariant if and only if the stored range ends within the 64-bit keys |
| `KueueInvariant.GenuineAtHead` | include/impl/KueueImpl.h:193-197 | a key handed out by readNext equals the smallest key exactly if its message has not been removed |
| `KueueInvariant.KeysDiffer` | include/impl/KueueImpl.h:74-102 | a put and a concurrent removal or read never work on the same key: the one is absent, the other present |
| `KueueHistory.SizeIsExact` | include/impl/KueueImpl.h:245-247 | between any two statements `size()` is the length of the abstract queue |
| `KueueHistory.ActionLinearizes` | include/impl/KueueImpl.h:66-243 | every action is a step of one abstract FIFO queue: it appends at fetch_add, removes the oldest at fetch_sub, shows the oldest in readNext, finds emptiness truthfully, and otherwise does nothing |
| `KueueHistory.RunsLinearize` | include/impl/KueueImpl.h:66-243 | the events of every interleaving, with stops, form a legal history of that queue |
| `KueueHistory.LegalIsFifo` | include/impl/KueueImpl.h:66-243 | in a legal history, stops included, initial contents followed by everything that arrived equals everything that departed followed by what is left |
| `KueueHistory.RunsAreFifo` | include/impl/KueueImpl.h:29-243 | so no run, with any failing store calls and any stops and reopenings, loses, duplicates or reorders a message |
| `KueueHistory.CountedIsKept` | include/impl/KueueImpl.h:66-90 | durability: a message that a put has counted departs or is still there, after any number of stops |
| `KueueHistory.RestartLinearizes` | include/impl/KueueImpl.h:29-64 | a stop loses nothing but the uncounted effects of the operations under way: an unfinished take may have taken the oldest message, an unfinished put may have left its own as the newest |
| `KueueHistory.StoreIsFifo` | include/impl/KueueImpl.h:66-243 | across any number of stops, what the store gave up is a prefix of what it accepted, and it holds exactly the rest, in order |
| `KueueHistory.QuiescentTotals` | include/impl/KueueImpl.h:257-263 | when no thread is in a section, count = recovered + totalPuts - totalTakes, and the indices differ by the count |
| `KueueHistory.ReadsAgree` | include/impl/KueueImpl.h:159-190 | two reads since opening have the same key exactly if they read the same message, and then the same value |
| `KueueHistory.ReadIsStable` | include/impl/KueueImpl.h:159-216 | after an Ok readNext, whatever runs next, its message is the oldest under the same key until it is removed; once removed, it is gone at its own position and its key is no longer the smallest |
| `KueueHistory.ReadReturnsOldest` | include/impl/KueueImpl.h:177-183 | readNext hands out the oldest message and its key |
| `KueueHistory.EraseIsExact` | include/impl/KueueImpl.h:196-212 | an erase that holds the lock finds nothing to do, and changes nothing, if and only if its message is gone; one that removes something removes the message that was read |
| `KueueAnswers.OperationAnswers` | include/impl/KueueImpl.h:66-243 | every completed operation, under any interleaving: between call and return its thread causes exactly the events its reply announces (an accepted put one Enqueue of its value, a take one Dequeue of the value it returns, an erase one Dequeue of the value that was read or nothing, clear Dequeues until the queue is empty or a removal fails, a failed call nothing), and the reply is the one its own tests of the count, store calls, wake-ups and notifications deserve |
| `KueueAnswers.CallsDecide` | include/impl/KueueImpl.h:74-237 | the store calls of the thread between call and return fix the reply: put makes exactly one and fails if and only if it does; erase makes at most one and fails if and only if it does; take and readNext make exactly one unless they time out, which takes a positive timeout, and fail if and only if it does; clear makes Ok calls only, or fails with the last |
| `KueueAnswers.ClearSucceeds` | include/impl/KueueImpl.h:227-237 | a completed clear fails if and only if one of its own store calls does, and otherwise replies Cleared |
| `KueueAnswers.ExpiryIffTimed` | include/impl/KueueImpl.h:129-139 | a waiting thread can wake spuriously at any time, and because its timeout ended if and only if it is in a take or readNext with a positive timeout |
| `KueueAnswers.TimeoutIsReported` | include/impl/KueueImpl.h:129-139 | after the timeout the thread tests the count once more: if it is not positive the reply is TimedOut, otherwise the oldest message is fetched |
| `KueueReplies.ConsumeCalls` | include/impl/KueueImpl.h:129-145 | the marks of a take or readNext that timed out contain no store call; those of any other contain one, which decides its reply |
| `KueueReplies.ClearCalls` | include/impl/KueueImpl.h:227-237 | clear makes one Ok store call for each message it removes, and one more, the last, if and only if it fails |
| `KueueProgress.StepDescends` | include/impl/KueueImpl.h:66-243 | in any run, each statement of a thread lowers a bound on the statements it has still to execute before it returns or sleeps; only clear's depends on the count, which its locks keep others from raising |
| `KueueProgress.AloneIsShort` | include/impl/KueueImpl.h:66-243 | so an operation that runs alone without waiting is over within a number of statements given by where it is and by the count |
| `KueueProgress.AloneGoesOn` | include/impl/KueueImpl.h:66-243 | and until then its next statement can be executed, whatever the store answers |
| `KueueOperations.TestRefusesIffGone` | include/impl/KueueImpl.h:193 | the test erase makes before locking fails if and only if its message is gone, one whose removal is still under way not counted |
| `KueueOperations.LateErase` | include/impl/KueueImpl.h:192-216 | every completed erase, under any interleaving, that was refused or found nothing to do came too late: its message had been removed |
| `KueueExamples.EraseCanBeUnneeded` | include/impl/KueueImpl.h:193-211 | a reachable state in which an erase is about to return true although another erase removed the message |
| `StoreDiscipline.TidyKept` | include/impl/KueueImpl.h:74-81 | every put meets an absent key and every single-remove a present one |
| `StoreDiscipline.RunsKeepTidy` | include/impl/KueueImpl.h:66-243 | over whole runs, with reopenings and reused keys |
| `StoreDiscipline.SingleDeleteIsSafe` | include/rocksdb/db.h:552-565 | hence every SingleDelete of a run is preceded by exactly one Put of its key since the previous SingleDelete of it |
| `StoreDiscipline.RemovalsAreInOrder` | include/impl/KueueImpl.h:102-237 | between two openings the removals, by take, erase or clear, concern consecutive keys in increasing order from the head on, and the head advances by their number |
| `StoreDiscipline.EachKeyOnce` | include/impl/KueueImpl.h:159-216 | hence no key is removed twice |
| `KueueWakeUp.StepAwakeIff` | include/impl/KueueImpl.h:83-112 | a step loses a wake-up exactly if it is a readNext, or a take whose store call fails, that was the only help for a sleeper |
| `KueueWakeUp.NotifyingKeepsAwake` | include/impl/KueueImpl.h:272-275 | a notification, given under takeLock, reaches a sleeper if there is one: no other thread is then between its test and its wait |
| `KueueWakeUp.SignalWithoutLockIsLost` | include/impl/KueueImpl.h:272-275 | given while a consumer stands there, it would be lost on that consumer; takeLock excludes such states |
| `KueueWakeUp.NoLostWakeUp` | include/impl/KueueImpl.h:83-150 | in all runs without such calls, a counted message and a consumer that sleeps, or has found the queue empty and is about to, imply that a signal, an unblocked consumer or a consumer about to notify is under way |
| `KueueWakeUp.NoLostWakeUpFromStart` | include/impl/KueueImpl.h:83-150 | in particular in every such run from a queue just opened |
| `KueueWakeUp.SleepersMeanEmpty` | include/impl/KueueImpl.h:98-101 | then, if every unfinished thread sleeps, the queue is empty |
| `KueueExamples.WakeUpCanBeLost` | include/impl/KueueImpl.h:159-190 | a reachable state in which a message is counted, a consumer sleeps, and no thread will wake it |
| `KueueWakeUp.LockOrder` | include/impl/KueueImpl.h:225-226 | the holder of takeLock never waits for a lock, the holder of putLock at most for takeLock |
| `KueueWakeUp.SomeThreadSteps` | include/impl/KueueImpl.h:66-275 | deadlock freedom: if an operation is unfinished and not asleep, some thread can execute its next statement |
| `KeyCodec.PutIsBigEndian` | include/impl/KueueImpl.h:14-18 | swapping bytes and copying memory gives the big-endian digits |
| `KeyCodec.DecodeEncode` | include/impl/KueueImpl.h:14-24 | every 64-bit number survives encoding and decoding |
| `KeyCodec.EncodeDecode` | include/impl/KueueImpl.h:14-24 | every 8-byte key survives decoding and encoding |
| `KeyCodec.PrefixIsLess` | include/rocksdb/slice.h:283-294 | a key comes before all its proper extensions, and never after |
| `KeyCodec.FirstDifferenceDecides` | include/rocksdb/slice.h:283-294 | otherwise the first differing byte decides the order, read as unsigned, whatever follows and however long the keys are |
| `KeyCodec.OrderIsNumeric` | include/rocksdb/comparator.h:182-187 | keys are ordered bytewise exactly as their numbers are |
| `StoredKeys.SmallestIsNumeric` | include/impl/KueueImpl.h:37-44 | the first key in bytewise order is the smallest number stored |
| `StoredKeys.GreatestIsNumeric` | include/impl/KueueImpl.h:45-55 | the last key in bytewise order is the greatest number stored |
| `StoredKeys.ViewPut` | include/impl/KueueImpl.h:74 | a put under an encoded key is a put under its number and touches no other key |
| `StoredKeys.ViewRemove` | include/impl/KueueImpl.h:102-103 | a removal of an encoded key is a removal of its number and touches no other key |
| `QueueStore.RecoverContiguous` | include/impl/KueueImpl.h:36-60 | a range of n keys within 64 bits is accepted exactly if n < 2^63, and then rebuilt with count n even if maxKey wraps to 0 |
| `QueueStore.RecoverStraddling` | include/impl/KueueImpl.h:56-59 | a range that runs past the largest key is taken for an empty queue |
| `QueueStore.RecoverExactIff` | include/impl/KueueImpl.h:36-60 | recovery is exact if and only if the queue is empty or ends within the keys and has fewer than 2^63 messages |
| `QueueStore.RecoverSeenExactIff` | src/impl/StoreImpl.cpp:551-601 | with iterator errors in either search, recovery is exact if and only if the queue is empty, or the greatest key is found, the smallest is found or is 0, and the range is one that can be recovered at all |
| `QueueStore.LostSearchExamples` | src/impl/StoreImpl.cpp:551-601 | one message at key 5 is refused, opened as empty or opened as six messages, depending on the search that is lost |
| `QueueStore.ArithmeticIsModular` | include/impl/KueueImpl.h:47-58 | index arithmetic is unsigned modulo 2^64, and the count is its signed reading |
| `Kueue.StoreImpl.SingleRemoveIfPresent` | src/impl/StoreImpl.cpp:387-407 | the status of the first failing step; the family changes only on Ok; the value read is returned even if the removal fails |
| `Kueue.StoreImpl.FindMinKey` | src/impl/StoreImpl.cpp:539-574 | Ok and the bytewise smallest key; null for an empty family, an empty key or an iterator error |
| `Kueue.StoreImpl.FindMaxKey` | src/impl/StoreImpl.cpp:576-611 | Ok and the bytewise greatest key; null for an empty family, an empty key or an iterator error |
| `Kueue.StoresIsEncoded` | include/impl/KueueImpl.h:74 | only one family stores a given queue from a given key on |
| `Kueue.RecoveredIsRebuilt` | include/impl/KueueImpl.h:36-60 | from the extreme byte keys of a stored queue its indices are rebuilt, with the two exceptions |
| `Kueue.ReadBackIsNumeric` | include/impl/KueueImpl.h:36-60 | from a family of eight-byte keys the constructor reads the indices of the numeric extremes, of nothing where a search met an iterator error |
| `Kueue.StraddlingExample` | include/impl/KueueImpl.h:56-59 | two messages stored from the largest key on are recovered as a valid, empty queue |
| `Kueue.StraddlingOpens` | include/impl/KueueImpl.h:56-59 | as is every queue that runs past the largest key |
| `Kueue.ImagePut` | include/impl/KueueImpl.h:74-78 | storing under maxKey and moving maxKey and count appends the message, if and only if the count does not wrap |
| `Kueue.ImageRemove` | include/impl/KueueImpl.h:102-108 | minKey holds the oldest message; removing it and moving minKey and count leaves exactly the others |
| `Kueue.KueueImpl.constructor` | include/impl/KueueImpl.h:29-64 | over any family: invalid if a call fails, else the indices read back from the bytewise first and last key, a key that is not eight bytes long counting as none; a missing family is created |
| `Kueue.KueueImpl.Put` | include/impl/KueueImpl.h:66-90 | appends exactly on Ok and otherwise leaves all fields and messages as they were; stays consistent if and only if it does not succeed on a queue of 2^63 - 1 messages; refuses on an invalid queue |
| `Kueue.PutOverflowExample` | include/impl/KueueImpl.h:75-78 | a put onto a queue of 2^63 - 1 messages leaves a count of -2^63 |
| `Kueue.KueueImpl.Take` | include/impl/KueueImpl.h:92-119 | blocks exactly on an empty queue; on Ok returns and removes the oldest message, else changes nothing; the oldest value is returned even if its removal fails |
| `Kueue.KueueImpl.TimedTake` | include/impl/KueueImpl.h:121-157 | the same, with TimedOut for an empty queue and a positive timeout |
| `Kueue.KueueImpl.ReadNext` | include/impl/KueueImpl.h:159-190 | returns the oldest message and its key and removes nothing |
| `Kueue.KueueImpl.Erase` | include/impl/KueueImpl.h:192-216 | succeeds exactly if the key is minKey and the store agrees; stays consistent if and only if that does not happen on an empty queue |
| `Kueue.EraseOnEmptyExample` | include/impl/KueueImpl.h:192-205 | erasing the next key of a new queue leaves a size of -1 |
| `Kueue.KueueImpl.Clear` | include/impl/KueueImpl.h:218-243 | if the k-th removal is the first that is not Ok, the first k messages are gone and its code is the status; if all are Ok, the queue is empty and the status Ok; a closed store removes nothing and reports that; an empty queue leaves the status as it was; the totals advance by as many |
| `Kueue.FirstFailureIsFirst` | include/impl/KueueImpl.h:227-237 | all codes before the removal clear stops at are Ok, and its own is not; a closed store fails the first |
| `KueueLevels.QuiescentIsValid` | include/impl/KueueImpl.h:281-303 | in every run, whenever no thread is in a section, the shared data are those of a valid queue object over the byte-keyed family |
| `KueueLevels.OperationAlone` | include/impl/KueueImpl.h:66-243 | any operation that one thread executes alone between two quiescent states changes fields and messages, and replies, by the same predicates that the contracts of the object's methods state; a clear removes as many messages as it makes Ok store calls, and fails if and only if one more follows that is not |
| `KueueManager.KueueManagerImpl.constructor` | include/impl/KueueManagerImpl.h:10-22 | an open manager over the store, or a closed one if the store failed to open |
| `KueueManager.KueueManagerImpl.Get` | include/impl/KueueManagerImpl.h:24-38 | the same object for the same identifier, a new one with the indices read back for a new identifier, whatever its family holds, null and Closed after close; no deleted object is ever returned |
| `KueueManager.KueueManagerImpl.Close` | include/impl/KueueManagerImpl.h:72-81 | every queue object is deleted, the store closed with its families intact, and no queue known |
| `KueueClients.ServeAll` | include/impl/KueueManagerImpl.h:24-90 | any sequence of get, put, take, timed take, readNext, erase of a read key, clear, close and reopening, on a directory that already holds queues: every identifier ends with the contents and the answers of a persistent queue of its own that saw only the commands for it |
| `KueueClients.SlotIsFifo` | include/impl/KueueImpl.h:66-243 | that queue loses, duplicates and reorders nothing, across any number of closings: gone followed by present is what was there followed by what was accepted |
| `KueueClients.DropShows` | include/impl/KueueImpl.h:192-212 | a key that was read is erased exactly if its message is still the oldest, and then that message goes |
| `KueueClients.OpenShows` | include/impl/KueueManagerImpl.h:24-38 | a queue obtained for an identifier holds what its family stored, or is unusable and loses nothing |
| `IntervalSets.IntervalSet.FindPosition` | include/rocksdb/data_structure.h:643-652 | the first interval that does not start before the given one |
| `IntervalSets.IntervalSet.Absorb` | include/rocksdb/data_structure.h:714-745 | the merged interval spans the new one and all intervals it meets, and nothing it meets is left; the "no overlap" branch is dead |
| `IntervalSets.IntervalSet.InsertUnbounded` | include/rocksdb/data_structure.h:685-712 | adds exactly the points from the start on, or is refused |
| `IntervalSets.IntervalSet.InsertBounded` | include/rocksdb/data_structure.h:714-769 | keeps the vector sorted, disjoint and non-touching; adds the interval's points, or all points from its start on if the set was unbounded |
| `IntervalSets.IntervalSet.Insert` | include/rocksdb/data_structure.h:654-770 | an empty interval is refused; in merging mode any other is accepted; with fail_on_intersect a bounded one is accepted exactly if every interval that starts earlier ends before it, an unbounded one exactly if every interval does; a refused one changes nothing; an accepted one adds its points, or all from its start on if the set was unbounded; the representation invariant is kept |
| `IntervalSets.MergeIsWellFormed` | include/rocksdb/data_structure.h:757-768 | replacing a stretch by the merged interval keeps the representation invariant |
| `IntervalSets.MergePoints` | include/rocksdb/data_structure.h:757-768 | it has the old points and those inserted, and no others |
| `IntervalLaws.BytewiseIsTotal` | include/rocksdb/comparator.h:182-187 | the bytewise comparator is an order of the kind the interval sets require |
| `IntervalLaws.Canonical` | include/rocksdb/data_structure.h:586-592 | two well-formed vectors with the same points are equal |
| `IntervalLaws.Build` | include/rocksdb/data_structure.h:603-617 | successive insertions into an empty set form a run in the sense of the laws |
| `IntervalLaws.RunPoints` | include/rocksdb/data_structure.h:654-770 | after any bounded insertions the set has exactly the points of all of them |
| `IntervalLaws.AnyRunPoints` | include/rocksdb/data_structure.h:654-770 | the law for runs with unbounded insertions: the points of the bounded intervals before the first unbounded one, and all points from the start of each non-empty interval inserted from then on |
| `IntervalLaws.OrderDoesNotMatter` | include/rocksdb/data_structure.h:643-770 | the same bounded intervals in any order and multiplicity end in the identical vector |
| `IntervalLaws.PlainUnionIff` | include/rocksdb/data_structure.h:747-755 | an insertion is a plain union if and only if no unbounded interval begins after the new one's end |
| `IntervalLaws.AcceptsIntersectionIff` | include/rocksdb/data_structure.h:665-745 | fail_on_intersect accepts an intersecting interval exactly if it is bounded, some interval starts inside it and no earlier one reaches it |
| `IntervalLaws.RefusesDisjointIff` | include/rocksdb/data_structure.h:665-677 | it refuses a disjoint interval exactly if some interval ends where it starts and none starts inside it |
| `IntervalLaws.IntersectionAcceptedExample` | include/rocksdb/data_structure.h:714-745 | a concrete intersecting interval that is accepted |
| `IntervalLaws.DisjointRefusedExample` | include/rocksdb/data_structure.h:665-677 | a concrete disjoint interval that is refused |
| `IntervalLaws.GapFilledExample` | include/rocksdb/data_structure.h:747-755 | a concrete point that an insertion adds although neither interval had it |
| `GenericIntervals.GenericSet.Insert` | include/rocksdb/data_structure.h:490-580 | on bounded intervals the std::set version with its deferred erasure meets the same contract; an empty one changes nothing |
| `GenericIntervals.InsertionIsDetermined` | include/rocksdb/data_structure.h:490-580 | that contract leaves only one resulting vector |
| `GenericIntervals.BuildBoth` | include/rocksdb/data_structure.h:490-770 | the two implementations pass through the same vectors over any bounded insertions |
| `EnumSets.SmallEnumSet.constructor` | include/rocksdb/data_structure.h:51 | the empty set, for any maximum enumerator |
| `EnumSets.SmallEnumSet.All` | include/rocksdb/data_structure.h:60-71 | exactly the values from 0 to the maximum, with no stray bit above it |
| `EnumSets.SmallEnumSet.Contains` | include/rocksdb/data_structure.h:82-86 | membership |
| `EnumSets.SmallEnumSet.Empty` | include/rocksdb/data_structure.h:88-95 | true exactly for the empty set |
| `EnumSets.SmallEnumSet.Add` | include/rocksdb/data_structure.h:163-170 | adds the value; true exactly if the set changed |
| `EnumSets.SmallEnumSet.Remove` | include/rocksdb/data_structure.h:174-181 | removes the value; true exactly if the set changed |
| `EnumSets.SmallEnumSet.Count` | include/rocksdb/data_structure.h:151-157 | the cardinality of the set |
| `EnumSets.SmallEnumSet.SkipUnset` | include/rocksdb/data_structure.h:212-221 | the first member at or after a position, or the end; terminates |
| `EnumSets.SmallEnumSet.Visit` | include/rocksdb/data_structure.h:119-149 | iterating from begin to end meets every member once, in ascending order, count() of them |
| `EnumSets.NextInWord` | include/rocksdb/data_structure.h:214-217 | the trailing zeros of the shifted word lead to the next member, with none in between |
| `EnumSets.BelowCardinality` | include/rocksdb/data_structure.h:151-157 | one bits counted word by word are members counted value by value |
| `EnumSets.SameWordsIffSameMembers` | include/rocksdb/data_structure.h:73-77 | comparing the words decides equality of the sets |
| `Preallocation.LastBlockIsLeast` | include/rocksdb/env.h:1211-1213 | the computed block number is the least that covers the write if the sum does not overflow, and too small otherwise |
| `Preallocation.OverflowExample` | include/rocksdb/env.h:1211-1213 | a concrete write for which no block is allocated |
| `Preallocation.TilesCover` | include/rocksdb/env.h:1214-1222 | the union of adjacent ranges is exactly the file up to their end |
| `Preallocation.TilesAreDisjoint` | include/rocksdb/env.h:1214-1222 | adjacent ranges are pairwise disjoint |
| `Preallocation.SameWritesSameBlocks` | include/rocksdb/env.h:1204-1223 | the preallocated extent does not depend on the order or repetition of writes |
| `Preallocation.WritableFile.PrepareWrite` | include/rocksdb/env.h:1204-1223 | the Allocate ranges keep tiling the file exactly up to the last block, even on overflow; the write is covered if and only if the sum does not overflow or it was covered before; no block too many |
| `Preallocation.WritableFile.PrepareWrites` | include/rocksdb/env.h:1204-1223 | over any sequence of calls, every write whose sum does not overflow is covered |

## Left out

- RocksDB itself (transactions, compaction, write-ahead log, column families): only the documented contracts of SingleDelete and of bytewise order are used.
- The batching of WAL syncs in `StoreImpl` (src/impl/StoreImpl.cpp): a stop keeps every store call that returned Ok; the loss of unsynced writes is not modelled.
- The other operations of `StoreImpl`, `KindImpl`, `KVStore` and `bytes`: not used by the queue.
- Null `status`, `key` and length pointers, and ownership of the returned `char*` buffers.
- `std::chrono` durations: the end of a timeout is a step that may happen at any time while a timed call waits.
- The unsynchronized reads of `minKey` before locking in `erase`: modelled as one atomic read.
- Fairness and liveness: deadlock freedom and the wake-up property are safety properties; that a particular thread is served is not claimed.
- KueueThreads.HasRoom: a put is considered only while the queue holds fewer than 2^63 - 2 messages and fewer than 2^64 have passed since it was opened; beyond, the source's counters overflow.
- KueueThreads.Enabled: a run continues after a reopening only for ranges that end within the 64-bit keys, and an erase is given only keys read since opening; `KueueInvariant.ReopeningIff` and `Kueue.KueueImpl.Erase` state what happens otherwise.
- KueueClients.ServeAll: the stored queues end at least as many keys below 2^64, and have at least as many messages fewer than 2^63, as there are commands; searches for extreme keys meet no iterator error; erase is given keys that readNext returned. `QueueStore.RecoverSeenExactIff`, `Kueue.KueueImpl.Put` and `Kueue.KueueImpl.Erase` state what happens otherwise. A call that would block is answered at once.
- `compactAll`, `syncWal`, version strings and the path handling of the manager: forwarding.
- The generic `IntervalSet` with unbounded intervals or with start after end, and `Interval::CompareVariant`: the template promises no disjointness there.
- Properties attached to intervals, and comparators that equate different keys.
- `SetPreallocationBlockSize` after the first write, and the file systems behind `Allocate`, whose errors the source ignores.
- `With` and `Without` of the enumerator set, `Cleanable`, `ManagedPtr`, `IOStatus`, `CompactionFilter`, loggers, options and the remaining headers: they would only add easy members.
