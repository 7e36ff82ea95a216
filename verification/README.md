# A verified model of the hard parts of the Cocaine plugins

The Cocaine plugins add a coordination service (unicorn, on top of ZooKeeper), a worker
pool (node), a retrying proxy (vicodyn), dynamic log filters (logging) and a cache to the
Cocaine runtime. This project models the state machines and algorithms behind them in
Dafny 4.11 and proves what they promise, over every run, every interleaving and every input.
`dafny verify dfyconfig.toml` checks all of it.

How the model is organised:

- `Server.dfy` is the coordination service itself: a versioned tree, one-shot watches, and
  requests whose answer may arrive, be refused, or get lost after the effect. `Paths.dfy` has
  the names and paths.
- Each unicorn action (`Lock`, `Increment`, `Subscribe`, `Create`) is given twice: as functions
  that compute the reaction to each reply, and as a class that updates its fields in place and
  is proved to do exactly that. Beside it stands a *system*: any number of clients, the server,
  and everything other clients, the network and the user may do, one step at a time. The
  theorems quantify over every sequence of steps (`Runs`).
- `LockShape`, `LockExclusion`, `LockWaking`, `LockRelease` and `LockOnce` are the parts of the
  lock's inductive invariant; `LockTheorems` has the guarantees, `LockTold` what a caller gets to
  know, `LockDeletes` how often a node's deletion is asked for, `LockFailures` and `LockFolder`
  what a client may fail for, and `LockExample` a run in which the lock is granted.
- `IncrementOutcome` and `SubscribeTold` say what the callers of those actions are told, and
  `SubscribeVersions` exactly when a subscription's versions can go down.
- `Acl.dfy` is the permission check and the race for an unowned prefix. `EngineSpec.dfy`,
  `Engine.dfy` and `EngineLimits.dfy` are the worker pool scheduler. `Proxy.dfy` and
  `ProxyTheorems.dfy` are the retrying proxy, and `ProxyContents.dfy` what goes through it frame by
  frame. `Completion.dfy` is how a request on a worker ends. `Filter.dfy` is the log filter
  language. `LruCache.dfy` is the cache. `Machine.dfy` has fixed-width arithmetic.

What the proofs turned up about the code:

- The proxy never initialises the flag that remembers the client's choke
  (`vicodyn/src/vicodyn/proxy.cpp:118`). If the memory happens to hold `true`, a retry tells the
  next peer that the client has finished. `ProxyReplay.TransparentIff` says exactly when a peer
  sees something else than the client's own conversation; with a cleared flag it never does.
- Two lock clients that find their folder missing both try to create it, and the one that comes
  second fails on "exists already" (`unicorn/src/unicorn/zookeeper.cpp:534-540`); with the folder in
  place no client fails without cause (`LockFolder.FailureFreeIff`).
- A subscription whose first look fails for any reason reports "not existing" and sets no watch
  (`unicorn/src/unicorn/zookeeper.cpp:339-342`); it then never learns of the node.
- The versions a subscription delivers can go down exactly if the node is deleted while the
  subscription has no watch on it, has shown a version above zero and is still going to read it
  (`SubscribeVersions.DeleteHarmlessIff`). Creation order and version together never go back.
- The total load of a pool is accumulated in an `int`; it is right exactly below 2^31. Without a
  queue limit, everything accepted has a slot in every run if and only if all slots together stay
  below that (`EngineLimits.ReservationIff`).
- A request timeout discards both halves of a request; the channel is then revoked twice, and the
  engine's handler with the rebalance it posts called twice
  (`node/src/node/slave/machine.cpp:231-251`). The slot itself is released once: the second
  revocation finds nothing to erase.
- A severity of 2^31 or more is accepted from a representation but narrowed to `int`; a filter
  that has become negative is refused when its own representation is read back. An accepted
  filter can be stored exactly if all its severities are below 2^31 modulo 2^32
  (`FilterTheorems.StoredIffReadable`).
- The hand-written `>` on strings puts a proper prefix first, as `<` does, so that "at most" is
  not "less or equal" between a string and its own prefix.
- An unsigned operand above the largest signed number is equal to no attribute that holds that
  very number, because attributes are read as signed ones (`FilterTheorems.OwnValueIsEqual`).
- A create fails for good when somebody else creates one of the missing ancestors first
  (`CreateTheorems.RefusalIsFinal`).

## Model

| member | source | states |
|---|---|---|
| `Paths.SequenceNameOrder` | unicorn/src/unicorn/zookeeper.cpp:548-558 | among names with the same prefix and sequence numbers up to 2^31 - 1, the string order in which the lock sorts its folder is the order of the numbers |
| `Paths.TrailingDigitsOfPad` | unicorn/src/zookeeper.cpp:43-46 | a zero-padded sequence number after a non-digit has exactly its ten digits as trailing digits, so that every issued name counts as a sequence node |
| `Paths.SequenceNodeIff` | unicorn/src/zookeeper.cpp:43-46 | a name counts as a sequence node if and only if its last ten characters are digits and the one before them, if any, is not |
| `Paths.CutAtNthSlash` | unicorn/src/zookeeper.cpp:29-41 | the n-th parent is r exactly when the rest of the path starts at a slash and holds n slashes |
| `Paths.PathParentThrows` | unicorn/src/zookeeper.cpp:29-41 | asking for a parent throws exactly when the path is empty or has fewer slashes than levels asked for |
| `Paths.ParentOfParent` | unicorn/src/zookeeper.cpp:29-41 | the parent of the n-th parent is the (n+1)-th parent |
| `Paths.ParentOfJoin` | unicorn/src/zookeeper.cpp:29-41 | a child's parent is the folder it was joined to |
| `Paths.NodeNameOfJoin` | unicorn/src/zookeeper.cpp:48-54 | the node name of a joined path is the name that was joined |
| `Server.EventsSpec` | unicorn/src/zookeeper/connection.cpp:147-166 | a change makes as many events as its path has watchers, and none for others |
| `Server.RemainingSpec` | unicorn/src/zookeeper/connection.cpp:147-166 | all watchers of the changed path are forgotten and every other one stays, with multiplicity: watches fire once |
| `LockRecipe.SortSorts` | unicorn/src/unicorn/zookeeper.cpp:548 | the listing is sorted (that it is a permutation is the contract of the sort itself) |
| `LockRecipe.PlaceSpec` | unicorn/src/unicorn/zookeeper.cpp:548-563 | whatever order the server lists the children in: the own node is missing exactly when it is not listed, first exactly when no listed name is below it, and otherwise follows the greatest listed name below it |
| `LockRecipe.FindPlace` | unicorn/src/unicorn/zookeeper.cpp:548-563 | the binary search on the sorted listing finds that place |
| `LockRecipe.LockAction.constructor` | unicorn/src/unicorn/zookeeper.cpp:500-507 | a lock starts with depth zero, nothing created and an open scope |
| `LockRecipe.LockAction.ReleaseNode` | unicorn/src/unicorn/zookeeper.cpp:476-487 | deletes the own node at most once, or reconnects when the delete cannot be submitted |
| `LockRecipe.LockAction.AbortWithCurrentException` | unicorn/src/unicorn/zookeeper.cpp:142-151 | releases the node, tells an open callback the failure, and closes the scope |
| `LockRecipe.LockAction.CloseScope` | unicorn/src/unicorn/zookeeper.cpp:467-474 | closing an open scope releases the node; closing again does nothing |
| `LockRecipe.LockAction.OnCreateReply` | unicorn/src/unicorn/zookeeper.cpp:517-541 | climbs and descends the missing parents, records the own node, and deletes it at once if the scope was closed meanwhile |
| `LockRecipe.LockAction.OnChildrenReply` | unicorn/src/unicorn/zookeeper.cpp:543-567 | grants, watches the predecessor, or aborts, as the place of the own node demands |
| `LockRecipe.LockAction.OnExistsReply` | unicorn/src/unicorn/zookeeper.cpp:576-582 | lists again when the predecessor is already gone |
| `LockRecipe.LockAction.OnWatch` | unicorn/src/unicorn/zookeeper.cpp:584-589 | lists again on a deletion, aborts on any other event; what its caller gets to know of it is `LockTold.LossIsTold` |
| `LockRecipe.LockAction.Handle` | unicorn/src/unicorn/zookeeper.cpp:517-596 | the object's reaction to any message is the specified reaction |
| `LockExclusion.GrantNeedsFirst` | unicorn/src/unicorn/zookeeper.cpp:543-567 | of all messages only a listing whose least name is the own one makes a grant, one grant, in an open scope |
| `LockOnce.OnceHandled` | unicorn/src/unicorn/zookeeper.cpp:543-596 | handling any message keeps a single chain of look-ups, so that a second grant cannot arise |
| `LockTheorems.StepKeepsInv` | unicorn/src/unicorn/zookeeper.cpp:460-597 | every step of any client, the server, the network or anybody else keeps the lock's invariant |
| `LockTheorems.MutualExclusion` | unicorn/src/unicorn/zookeeper.cpp:543-567 | in every reachable state of any number of clients, at most one client that was granted the lock still has its node |
| `LockTheorems.NoLostWakeUp` | unicorn/src/unicorn/zookeeper.cpp:543-589 | in every reachable state, an open client with nothing in flight has its node and a watch on it, and holds the lock or watches an existing earlier sibling |
| `LockTheorems.ReleasedWhenClosed` | unicorn/src/unicorn/zookeeper.cpp:465-488 | at most one grant and one failure are ever told; a closed lock with nothing in flight has no node left or forced a reconnect |
| `LockTheorems.NeverStalls` | unicorn/src/unicorn/zookeeper.cpp:460-597 | when nothing is in flight and the folder holds only nodes of open clients, exactly one of them holds the lock |
| `LockTold.ClosedMeansTold` | unicorn/src/unicorn/zookeeper.cpp:142-151 | in every run in which the caller leaves the scope open, a client is closed if and only if its caller was told a failure, and then exactly once |
| `LockTold.LossIsTold` | unicorn/src/unicorn/zookeeper.cpp:569-596 | in every such run, once nothing is in flight for a client whose node is gone, granted or not, its caller has been told a failure |
| `LockDeletes.DeletesAtMostTwice` | unicorn/src/unicorn/zookeeper.cpp:465-541 | in every run a client asks for the deletion of its node at most twice, and never again once it has let go of a node it knows |
| `LockFailures.StepKeepsPeace` | unicorn/src/unicorn/zookeeper.cpp:517-596 | every step of a calm run keeps the folder holding only clients' nodes, every open client's node in place, and only harmless messages under way |
| `LockFailures.NoFailureWithoutCause` | unicorn/src/unicorn/zookeeper.cpp:517-596 | in every run in an empty folder with answered requests, accepted submissions, a live session and nobody else below the folder, no client is ever told a failure |
| `LockFolder.MissingFolderFails` | unicorn/src/unicorn/zookeeper.cpp:517-541 | wherever the folder is missing, with any number of the levels above it, a calm run exists in which two clients climb to the highest missing level together and one of them fails |
| `LockFolder.FailureFreeIff` | unicorn/src/unicorn/zookeeper.cpp:517-596 | for every valid folder without children, calm runs are free of failures if and only if the folder exists |
| `LockExample.AloneIsGranted` | unicorn/src/unicorn/zookeeper.cpp:509-567 | a run exists in which a lone client in an empty folder is granted the lock |
| `IncrementRecipe.IncrementAction.Start` | unicorn/src/unicorn/zookeeper.cpp:418-423 | a non-numeric operand is refused, anything else starts with a read |
| `IncrementRecipe.IncrementAction.OnGetReply` | unicorn/src/unicorn/zookeeper.cpp:426-443 | creates the missing node, or writes the sum under the version that was read; refuses non-numbers and nodes with children |
| `IncrementRecipe.IncrementAction.Handle` | unicorn/src/unicorn/zookeeper.cpp:426-457 | the object's reaction to any message is the specified reaction |
| `IncrementTheorems.StepKeepsInv` | unicorn/src/unicorn/zookeeper.cpp:405-458 | every step keeps the tie between the node and the history of effective writes |
| `IncrementTheorems.Conservation` | unicorn/src/unicorn/zookeeper.cpp:426-457 | in every run of any number of increments, with lost answers, the node holds the starting value plus the operands of exactly the writes that took effect, and no client writes twice |
| `IncrementTheorems.ToldTheTruth` | unicorn/src/unicorn/zookeeper.cpp:445-457 | a client told a value and a version wrote that value at that version, and no two clients are told the same version |
| `IncrementTheorems.IntegerSum` | unicorn/src/unicorn/zookeeper.cpp:426-457 | in every run over integers the node exists if and only if it did before or some write took effect, and holds the starting number, 0 if it was absent, plus the operands of all writes that took effect, modulo 2^64 |
| `IncrementTheorems.NumericSum` | unicorn/src/unicorn/zookeeper.cpp:426-457 | in every run over any numbers without 64-bit overflow the node holds the starting number plus those operands, and a node that is not a number is never written |
| `IncrementOutcome.FailureMeansUnwritten` | unicorn/src/unicorn/zookeeper.cpp:426-457 | in every run in which none of its answers is lost, a client that was told a failure has not written |
| `IncrementOutcome.OutcomeIsTrue` | unicorn/src/unicorn/zookeeper.cpp:426-457 | if its caller does not close the scope either, then once nothing is in flight the caller was told exactly one thing: success if and only if the operand was added |
| `IncrementOutcome.ToldOnce` | unicorn/src/unicorn/zookeeper.cpp:418-457 | in every run, with lost answers, a caller that leaves the scope open is told exactly one thing, a sum or a failure, the moment nothing of its client is under way, and nothing before |
| `IncrementOutcome.UnusableReadIsFinal` | unicorn/src/unicorn/zookeeper.cpp:426-443 | a client whose read failed, showed children or showed no number never writes and is never told a sum in any continuation; with the scope open it is told a failure |
| `IncrementOutcome.AskedOnlyIfPossible` | unicorn/src/unicorn/zookeeper.cpp:418-443 | in every run a request is only made if the connection takes it and the path is valid |
| `IncrementOutcome.UndisturbedSucceeds` | unicorn/src/unicorn/zookeeper.cpp:418-457 | from any state, an undisturbed increment of a number without children, or of an absent node whose parent exists, is told the sum and the version that the node then has |
| `SubscribeRecipe.SubscribeAction.Handle` | unicorn/src/unicorn/zookeeper.cpp:325-362 | the object's reaction to any message is the specified reaction |
| `SubscribeTheorems.StepKeepsInv` | unicorn/src/unicorn/zookeeper.cpp:307-363 | every step keeps: something is under way that makes the client look again, or its watch is set and the newest state is seen or on its way |
| `SubscribeTheorems.Convergence` | unicorn/src/unicorn/zookeeper.cpp:320-362 | whenever nothing is in flight, the last state delivered to an open subscription is the node's current one if and only if the first look did not fail or the node is absent |
| `SubscribeTheorems.NeverBackInTime` | unicorn/src/unicorn/zookeeper.cpp:325-362 | delivered states are ordered by creation and version, in every run |
| `SubscribeVersions.VersionsAscendWhenSafe` | unicorn/src/unicorn/zookeeper.cpp:325-362 | version numbers alone ascend in every run in which the node is never deleted in a dangerous state: open, unwatched, a version above zero seen, and nothing under way that closes the subscription |
| `SubscribeVersions.DangerousGoesDown` | unicorn/src/unicorn/zookeeper.cpp:325-362 | from every dangerous state the deletion has a continuation that delivers a lower version |
| `SubscribeVersions.DeleteHarmlessIff` | unicorn/src/unicorn/zookeeper.cpp:325-362 | at any point of a run without a dangerous deletion so far, deleting the childless node now keeps versions ascending in every further such run if and only if the state is not dangerous |
| `SubscribeTold.SubscriberHears` | unicorn/src/unicorn/zookeeper.cpp:318-362 | in every run in which the subscriber leaves its scope open it is given exactly the states its answers show, in order, until the first cancellation, failed read, read of a node with children, deletion, lost session or read that cannot be asked for; the scope is closed exactly if there was one, and exactly then one failure was told |
| `SubscribeTold.ClosedStopsWatching` | unicorn/src/unicorn/zookeeper.cpp:344-349 | once what a closed subscription had already asked for is served, it never sets a watch again and its watches only go away |
| `SubscribeTheorems.BlindExample` | unicorn/src/unicorn/zookeeper.cpp:336-343 | a run in which a failed first look leaves an existing node reported as absent, with nothing in flight |
| `SubscribeTheorems.BackwardsExample` | unicorn/src/unicorn/zookeeper.cpp:345-358 | a run in which delivered versions go down |
| `CreateRecipe.CreateAction.OnCreateReply` | unicorn/src/unicorn/zookeeper.cpp:260-277 | the object's reaction to a reply is the specified climb, descent, success or failure |
| `CreateTheorems.SuccessMeansCreated` | unicorn/src/unicorn/zookeeper.cpp:260-277 | whatever others do: at most one request is under way, aimed at the parent of the current depth; success is told at most once and only after the full path was created |
| `CreateTheorems.ToldOnce` | unicorn/src/unicorn/zookeeper.cpp:255-277 | whatever others do and whatever is lost, a create whose scope is left open tells exactly one thing, the moment nothing is under way any more, and nothing before |
| `CreateTheorems.RefusalIsFinal` | unicorn/src/unicorn/zookeeper.cpp:260-277 | an answer that refuses a request for another reason than a missing parent, an ancestor somebody else created included, is never followed by another request or by success; an open scope is told a failure |
| `CreateTheorems.AskedOnlyIfPossible` | unicorn/src/unicorn/zookeeper.cpp:260-277 | in every run a request follows an answer only if the connection takes it and its path is valid |
| `CreateTheorems.AloneTakes2mPlus1` | unicorn/src/unicorn/zookeeper.cpp:255-277 | without other writers, a create with m missing parents takes exactly 2m + 1 requests and succeeds once |
| `CreateTheorems.AloneLeaves` | unicorn/src/unicorn/zookeeper.cpp:255-277 | afterwards exactly the missing parents and the target are new, the parents empty, the target with its value, and nothing else changed |
| `CreateTheorems.BuiltSpec` | unicorn/src/unicorn/zookeeper.cpp:265-273 | which parents exist part-way down, path by path |
| `ConnectionPrefix.CreatePrefix` | unicorn/src/zookeeper/connection.cpp:316-331 | without a reconnect the prefix and all its parents exist afterwards; answered requests cause none; whatever fails, existing nodes are untouched and only empty levels of the prefix are new |
| `AclRecipe.MaskSpec` | unicorn/src/authorization/unicorn.cpp:161-177 | folding the masks leaves a right exactly when it was there and every subject has it |
| `AclRecipe.AllowedIff` | unicorn/src/authorization/unicorn.cpp:274-280 | an operation is allowed if and only if each right it needs is held by all client ids, of which there is one, or by all user ids, of which there is one |
| `AclRecipe.FillOwner` | unicorn/src/authorization/unicorn.cpp:251-256 | the first owner's table grants both rights to exactly its own ids, and is empty only without ids |
| `AclRecipe.OwnerIsAllowed` | unicorn/src/authorization/unicorn.cpp:247-280 | that table allows its owner every operation |
| `AclRace.StepKeepsInv` | unicorn/src/authorization/unicorn.cpp:231-361 | every step of any interleaving of lookups, decisions and uploads, with lost answers, keeps at most one winner, whose table is the stored one |
| `AclRace.AtMostOneOwner` | unicorn/src/authorization/unicorn.cpp:306-361 | from an unowned prefix, at most one client that tries to initialise it is told success; the stored table is then its own, and every other one was told an error |
| `AclRace.AllowedIsEntitled` | unicorn/src/authorization/unicorn.cpp:116-148 | the mask test is the rule: reading events need the reading right, all others both, held by all client ids or by all user ids |
| `AclRace.VerdictIsDue` | unicorn/src/authorization/unicorn.cpp:231-283 | in every run from any stored table, a client is told success, denial or bad framing, or goes on to claim, exactly as the table it looked up, its event and its ids demand |
| `AclRace.ClaimIsToldTheOutcome` | unicorn/src/authorization/unicorn.cpp:306-361 | in every run from any stored table, a claimant is told success exactly if its write was carried out and heard of, a change exactly if it heard that its update was refused, and a backend error otherwise |
| `AclRace.OwnerCanDoAnything` | unicorn/src/authorization/unicorn.cpp:231-283 | once a client owns the prefix, every later request of any kind under its ids is told success unless its lookup failed, and every later one under ids that lack a right it needs is denied |
| `AclRace.ExactlyOneOwner` | unicorn/src/authorization/unicorn.cpp:231-361 | from an unowned prefix, if every upload is answered: once a modifying client with an id has been served, exactly one client has won, the stored table is its own, it was told nothing but success, and no other claimant was told success |
| `LruSpec.Consistent` | cache/include/cocaine/lru_cache.hpp:36-62 | after any operations the entries are distinct, within the capacity, and each is the last value put for its key |
| `LruSpec.HitIsLastPut` | cache/include/cocaine/lru_cache.hpp:54-62 | a hit returns the last value put for the key |
| `LruSpec.Inclusion` | cache/include/cocaine/lru_cache.hpp:36-62 | the stack property: after the same operations a smaller cache holds a subsequence of a larger one's list and is as full as it can be |
| `LruSpec.MoreCapacityMoreHits` | cache/include/cocaine/lru_cache.hpp:36-62 | a hit at one capacity is a hit with the same value at every larger one: there is no Belady anomaly |
| `LruRecency.LeastRecentlyUsed` | cache/include/cocaine/lru_cache.hpp:36-62 | after any history of puts and gets, a key is in the cache if and only if it was used (put, or got while it was there) and fewer other keys than the capacity were used since its own last use; the list is in the order of last use, the latest first |
| `LruCache.IndexSpec` | cache/include/cocaine/lru_cache.hpp:72-75 | the index has exactly the keys of the list and leads to the list's own cell for each |
| `LruCache.Cache.constructor` | cache/include/cocaine/lru_cache.hpp:32-34 | a new cache is empty |
| `LruCache.Cache.Put` | cache/include/cocaine/lru_cache.hpp:36-52 | list and index stay coherent; the entry becomes the newest and the oldest goes when the capacity is exceeded |
| `LruCache.Cache.Get` | cache/include/cocaine/lru_cache.hpp:54-62 | the value for the key, which becomes the newest entry; nothing changes on a miss (what that means over a history is `LruRecency.LeastRecentlyUsed`) |
| `LruCache.Cache.Exists` | cache/include/cocaine/lru_cache.hpp:64-66 | true exactly for the keys of the list |
| `LruCache.Cache.Size` | cache/include/cocaine/lru_cache.hpp:68-70 | the number of entries, within the capacity |
| `EngineSpec.PressureExactIff` | node/src/node/engine.cpp:503-511 | the computed total load is the true one if and only if the true one is below 2^31 |
| `EngineSpec.DispatchKeeps` | node/src/node/engine.cpp:521-551 | dispatching keeps the workers and their activity, adds exactly the assigned loads to the total, and takes no worker over its concurrency |
| `EngineSpec.DispatchBalances` | node/src/node/engine.cpp:482-551 | dispatching never spreads active workers further apart than they were, or than one |
| `EngineSpec.StepKeepsSlots` | node/src/node/engine.cpp:226-647 | every event of the engine keeps a slot reserved for everything accepted |
| `EngineSpec.SlotReservation` | node/src/node/engine.cpp:237-266 | in every reachable state no worker is over its concurrency, without a queue limit everything accepted fits the slots, and neither unsigned subtraction wraps, provided all slots fit in an int |
| `EngineSpec.CeilDivSpec` | node/src/node/engine.cpp:570-582 | the rounded-up quotient is the least number of workers that covers the rest |
| `EngineSpec.TargetSufficesAndIsMinimal` | node/src/node/engine.cpp:565-587 | without a queue limit the automatic target covers everything accepted, is never cut by the pool limit, and one worker less would not do |
| `Engine.EngineObject.SelectSlave` | node/src/node/engine.cpp:482-501 | the least loaded worker that passes the filter; none only if none passes |
| `Engine.EngineObject.PoolPressure` | node/src/node/engine.cpp:503-511 | the sum of the loads, reduced to 32 bits at each addition, is the true sum reduced once |
| `Engine.EngineObject.OfferFront` | node/src/node/engine.cpp:309-347 | the first load goes to the least loaded free worker: handed over exactly if that worker takes it, dropped exactly if it has expired, kept if the worker rejects it or nobody is free |
| `Engine.EngineObject.RebalanceEvents` | node/src/node/engine.cpp:521-551 | the loads leave the queue in order, each to the least loaded free worker of its moment, handed over or dropped as expired as that offer was decided, until the queue, the workers or the free slots run out, or the next load is rejected |
| `Engine.EngineObject.SpawnSlave` | node/src/node/engine.cpp:290-307 | adds one inactive worker exactly when the pool is below its limit |
| `Engine.EngineObject.GrowTo` | node/src/node/engine.cpp:626-645 | the pool reaches the target by idle new workers, everybody else untouched; it fails exactly if the target is beyond the limit |
| `Engine.EngineObject.SealDownTo` | node/src/node/engine.cpp:593-625 | only least loaded active workers are sealed, loads are untouched, and with obedient workers no more than the target stay active |
| `Engine.EngineObject.ChooseTarget` | node/src/node/engine.cpp:561-587 | the manual target cut by the limit; else a target that, with a queue limit, is one worker for every threshold of queued requests, and without one covers all accepted work with none to spare |
| `Engine.EngineObject.RebalanceSlaves` | node/src/node/engine.cpp:553-647 | under a manual target not above the pool's size the least loaded workers are sealed down to it; under a larger one the pool has exactly that size, or the limit; without one it has one worker for every threshold of queued requests, or slots for all accepted work and one worker less would not do; growth is by idle new workers with everybody else untouched; nothing moves while stopped or backing off, the automatic policy never seals, and no spawn fails |
| `Engine.EngineObject.RebalanceAll` | node/src/node/engine.cpp:513-647 | dispatching ends for one of its reasons, and what it leaves is resized; nothing else happens |
| `Engine.EngineObject.Enqueue` | node/src/node/engine.cpp:226-277 | a request is accepted exactly when there is room, at the end of the queue; then the queue is dispatched and the pool resized, refused or not, and nothing else happens |
| `Engine.EngineObject.OnSlaveDeath` | node/src/node/engine.cpp:425-471 | the worker leaves; after a failure spawning pauses, and the pause doubles up to 32 while failures are recent |
| `EngineLimits.FullPoolAdmits` | node/src/node/engine.cpp:237-266 | without a queue limit and with 2^31 slots or more, every pool that uses up all of them still admits |
| `EngineLimits.Overcommits` | node/src/node/engine.cpp:237-266 | for every such profile a run from an empty engine accepts one request more than there are slots |
| `EngineLimits.ReservationIff` | node/src/node/engine.cpp:237-266 | without a queue limit, every run from an empty engine keeps a slot for everything accepted if and only if all slots together are below 2^31 |
| `Engine.GrowthByThreshold` | node/src/node/engine.cpp:569-587 | with a queue limit the grown pool is at its limit or fewer requests are queued than one more worker would be due for; and if it grew past one worker, at least a threshold of requests is queued for each |
| `Engine.GrowthSuffices` | node/src/node/engine.cpp:565-645 | the size the pool grows to covers everything accepted |
| `Engine.GrowthIsMinimal` | node/src/node/engine.cpp:565-645 | when the pool grew, one worker less would not cover it |
| `ProxyRecipe.VicodynDispatch.constructor` | vicodyn/src/vicodyn/proxy.cpp:184-195 | a new dispatch has no stream, an empty buffer, buffering on, and an arbitrary choke flag |
| `ProxyRecipe.VicodynDispatch.OpenAndReplay` | vicodyn/src/vicodyn/proxy.cpp:398-405 | a fresh stream receives the enqueue, the buffered chunks in order and the choke, as far as it accepts them; it throws exactly when it accepts fewer |
| `ProxyRecipe.VicodynDispatch.RetryUnsafe` | vicodyn/src/vicodyn/proxy.cpp:385-407 | counts the retry, refuses when buffering is over or the limit is passed, then chooses, marks and opens |
| `ProxyRecipe.VicodynDispatch.SendBack` | vicodyn/src/vicodyn/proxy.cpp:74-98 | nothing is sent to the client after a terminal frame; a throwing send changes nothing |
| `ProxyRecipe.VicodynDispatch.SendForward` | vicodyn/src/vicodyn/proxy.cpp:74-98 | the same for the stream to the peer, and nothing without one |
| `ProxyRecipe.VicodynDispatch.EnqueueUnsafe` | vicodyn/src/vicodyn/proxy.cpp:363-382 | opens on the first peer, else retries once, else tells the client |
| `ProxyRecipe.VicodynDispatch.HandleForwardChunk` | vicodyn/src/vicodyn/proxy.cpp:245-251 | buffers and forwards, skips without a stream, and tells the client when the send throws |
| `ProxyRecipe.VicodynDispatch.HandleForwardChoke` | vicodyn/src/vicodyn/proxy.cpp:253-259 | remembers and forwards the choke |
| `ProxyRecipe.VicodynDispatch.HandleForwardError` | vicodyn/src/vicodyn/proxy.cpp:261-265 | forwards the client's error |
| `ProxyRecipe.VicodynDispatch.HandleClientGone` | vicodyn/src/vicodyn/proxy.cpp:324-329 | tells the peer that the client is gone |
| `ProxyRecipe.VicodynDispatch.HandleBackwardChunk` | vicodyn/src/vicodyn/proxy.cpp:267-275 | ends buffering and passes the chunk on; that the client sees each of them unchanged is `ProxyContents.ClientHearsThePeer` |
| `ProxyRecipe.VicodynDispatch.HandleBackwardError` | vicodyn/src/vicodyn/proxy.cpp:277-299 | retries a recoverable error and passes any other on |
| `ProxyRecipe.VicodynDispatch.HandleBackwardChoke` | vicodyn/src/vicodyn/proxy.cpp:301-310 | closes the client's stream |
| `ProxyRecipe.VicodynDispatch.HandleBackwardGone` | vicodyn/src/vicodyn/proxy.cpp:233-239 | a lost peer is an error for the client |
| `ProxyResponse.StepKeepsInv` | vicodyn/src/vicodyn/proxy.cpp:101-407 | every event, with any failure, keeps a well-formed answer from one stream and the bound on peers |
| `ProxyResponse.SingleSource` | vicodyn/src/vicodyn/proxy.cpp:267-407 | in every run the client sees chunks of a single stream and then at most one terminal frame; at most 1 + limit peers are used, and no more streams opened than peers used |
| `ProxyResponse.NeverForgotten` | vicodyn/src/vicodyn/proxy.cpp:277-382 | in every run in which the client can be reached, the client has its terminal frame or some peer's stream is still live |
| `ProxyReplay.TransparentIff` | vicodyn/src/vicodyn/proxy.cpp:184-195 | while a retry is possible, the current peer has been sent exactly the client's conversation if and only if its stream was not replayed with a choke the client had not sent, or the client sent that choke right then |
| `ProxyReplay.RetryTransparency` | vicodyn/src/vicodyn/proxy.cpp:385-407 | with the choke flag initially clear, however many peers failed, the current one has been sent the enqueue and all the client's frames with their headers, in order |
| `ProxyContents.ClientHearsThePeer` | vicodyn/src/vicodyn/proxy.cpp:233-310 | in every run, whatever fails, the client has been sent exactly, in order and up to the first end: each frame of the peer with its headers and contents, but for errors made good by a retry; an error for each retry without hope; and an error for each of its own frames that was lost |
| `ProxyContents.PeerHearsTheClient` | vicodyn/src/vicodyn/proxy.cpp:245-329 | in every run without another stream, whatever fails, the current peer has been sent exactly the client's frames that were not lost, with their headers and contents, and an error when the client is gone or cannot be reached, up to the first end and nothing after |
| `ProxyContents.BufferedUntilAnswered` | vicodyn/src/vicodyn/proxy.cpp:245-407 | in every run that reached a peer, the proxy buffers exactly until the first answer and then forgets the request; its buffer is the client's chunks since the last answer with their headers; every retry is counted; its peer is the one chosen last |
| `ProxyReplay.GarbageExample` | vicodyn/src/vicodyn/proxy.cpp:118-194 | with the flag initially set, one recoverable error makes the next peer see a choke that the client never sent |
| `Completion.ClientDispatch.AttachStream` | node/src/node/dispatch/client.cpp:24-41 | binds an open dispatch, or completes one that has already ended |
| `Completion.ClientDispatch.FinalizeOnce` | node/src/node/dispatch/client.cpp:78-95 | ends the dispatch and calls back if a stream is bound; an ended one is left alone |
| `Completion.ClientDispatch.DiscardWith` | node/src/node/dispatch/client.cpp:43-58 | a real error is remembered and ends the dispatch; success is ignored |
| `Completion.ClientDispatch.AbortStream` | node/src/node/dispatch/client.cpp:64-67 | ends the dispatch unless the stream throws |
| `Completion.ClientDispatch.CloseStream` | node/src/node/dispatch/client.cpp:69-72 | ends the dispatch unless the stream throws |
| `Completion.WorkerDispatch.OnChunk` | node/src/node/dispatch/worker.cpp:13-25 | forwards until closed; a failed send ends with a connection error |
| `Completion.WorkerDispatch.OnError` | node/src/node/dispatch/worker.cpp:27-40 | forwards the error and ends |
| `Completion.WorkerDispatch.OnChoke` | node/src/node/dispatch/worker.cpp:42-55 | forwards the choke and ends |
| `Completion.WorkerDispatch.DiscardWith` | node/src/node/dispatch/worker.cpp:58-75 | a real error is forwarded if possible and ends with success either way |
| `Completion.ChannelObject.CloseSendSide` | node/src/node/slave/channel.cpp:28-32 | clears the sending bit and notifies if that completes a watched channel |
| `Completion.ChannelObject.CloseRecvSide` | node/src/node/slave/channel.cpp:34-38 | the same for the receiving bit |
| `Completion.ChannelObject.CloseBothSides` | node/src/node/slave/channel.cpp:40-44 | the same for both bits |
| `Completion.ChannelObject.StartWatch` | node/src/node/slave/channel.cpp:58-62 | watches, and notifies if both sides are closed already |
| `CompletionTheorems.ClientFiresOnce` | node/src/node/dispatch/client.cpp:24-95 | for every sequence of events with one attach, the callback fires exactly once, the moment both a stream and an end are there, in either order, with the last error known then |
| `CompletionTheorems.WorkerFiresOnce` | node/src/node/dispatch/worker.cpp:13-89 | for every sequence of events the callback fires exactly once, at the first end, with success unless that end is a frame that could not be sent, and the client is sent exactly the frames up to it |
| `CompletionTheorems.ChannelCounts` | node/src/node/slave/channel.cpp:28-70 | the bits, the watch and the number of notifications after any events: one for every event from the completing one on |
| `CompletionTheorems.ChannelOnceIff` | node/src/node/slave/channel.cpp:58-70 | a channel has notified exactly once if and only if its last event is the completing one, and at all if and only if it is complete |
| `CompletionTheorems.ClosedOnceNotifiesOnce` | node/src/node/slave/channel.cpp:28-70 | a channel whose sides are closed once each notifies exactly once, never before both are closed and it is watched |
| `RequestSystem.StepKeepsInv` | node/src/node/slave/machine.cpp:181-270 | every step of the client, the worker, the injecting thread or a shutdown keeps the tie between both dispatches and their channel |
| `RequestSystem.RevokedExactlyWhen` | node/src/node/slave/machine.cpp:181-270 | in every run the channel has been revoked if and only if it is watched and both halves are over, or one failed, or the worker shut down |
| `RequestSystem.RevokedOnce` | node/src/node/slave/machine.cpp:181-270 | without a failure the channel is revoked exactly once |
| `RequestSystem.RevokedAtMostTwice` | node/src/node/slave/machine.cpp:181-270 | however the halves end, the channel is revoked at most twice, and once more for every shutdown |
| `RequestSystem.RevokedOnceIff` | node/src/node/slave/machine.cpp:181-270 | once both halves are over, the channel was revoked once if and only if the watch and a failed half did not both come before the other half's end |
| `RequestSystem.TimeoutExample` | node/src/node/slave/machine.cpp:231-251 | a timeout after the watch calls the channel's callback twice |
| `SlaveSystem.SlaveMachine.Load` | node/src/node/slave/machine.cpp:134-136 | the load is the number of requests that hold a slot |
| `SlaveSystem.SlaveMachine.NewRequest` | node/src/node/slave/machine.cpp:181-200 | the object makes the model's step and keeps its invariant: a number never used before, and no slot yet |
| `SlaveSystem.SlaveMachine.RegisterChannel` | node/src/node/slave/machine.cpp:208-215 | the object makes the model's step and keeps its invariant: the request holds a slot from now on, and the load grows by one |
| `SlaveSystem.SlaveMachine.RevokeChannel` | node/src/node/slave/machine.cpp:382-413 | the object makes the model's revocation: the load falls by one exactly if the channel was there, and the handler is called either way |
| `SlaveSystem.SlaveMachine.Handle` | node/src/node/slave/machine.cpp:191-267 | the object makes the model's step and keeps its invariant: the channel leaves the table exactly when its request is over |
| `SlaveSystem.SlaveMachine.ShutDown` | node/src/node/slave/machine.cpp:348-362 | the object makes the model's step and keeps its invariant: no request holds a slot any more |
| `SlaveSystem.SlaveMachine.RunPostedClose` | node/src/node/slave/machine.cpp:354-358 | the object makes the model's step and keeps its invariant: closing late what a shutdown dropped releases nothing |
| `SlaveSystem.StepKeepsInv` | node/src/node/slave/machine.cpp:181-413 | every step of any number of requests and of shutdowns keeps the table of channels equal to the requests that hold a slot |
| `SlaveSystem.LoadIsTheBusyRequests` | node/src/node/slave/machine.cpp:134-136 | in every run the load is the number of requests that were entered, are not over and were not thrown out by a shutdown |
| `SlaveSystem.SlotReleasedOnce` | node/src/node/slave/machine.cpp:382-391 | in every run, an event of a request lowers the load by one if the request holds its slot and is over with it, and leaves the load alone otherwise, however often the channel is revoked |
| `SlaveSystem.ReleasedForGood` | node/src/node/slave/machine.cpp:181-413 | a released slot is never held again |
| `SlaveSystem.ShutdownClosesAll` | node/src/node/slave/machine.cpp:348-362 | in every run each channel a shutdown threw out has been closed by it or still waits to be; closed and watched, it has been revoked |
| `SlaveSystem.TimeoutHandledTwice` | node/src/node/slave/machine.cpp:231-251 | a run in which a timeout calls the engine's handler twice and releases the slot once |
| `FilterLanguage.FindAttribute` | logging/src/logging/filter.cpp:225-235 | the nested search finds the first attribute of the name over the lists in order |
| `FilterTheorems.ParsePrint` | logging/src/logging/filter.cpp:355-742 | for every filter tree with 32-bit severities, reading its printed form gives the tree back if no severity is negative, and is refused otherwise |
| `FilterTheorems.PrintParse` | logging/src/logging/filter.cpp:633-742 | an accepted representation is printed back as it was, up to the kind of number of a severity, if and only if its severities are below 2^31 |
| `FilterTheorems.StoredIffReadable` | logging/src/logging/filter.cpp:355-742 | an accepted representation, printed and read again, gives the same filter if every severity is below 2^31 modulo 2^32, and is refused otherwise |
| `FilterTheorems.VerdictsSurvive` | logging/src/logging/filter.cpp:355-742 | exactly those representations can be stored and read again, and then with the same verdict on every record |
| `FilterTheorems.LossExample` | logging/src/logging/filter.cpp:640-643 | an accepted severity whose own representation is refused |
| `FilterTheorems.InfoRoundTrip` | logging/src/logging/filter.cpp:250-284 | a filter with its deadline, id, disposition and logger survives storage exactly if its filter does |
| `FilterTheorems.OnlyNamedMatter` | logging/src/logging/filter.cpp:355-631 | a verdict depends on a record only through its severity, the trace flag and the first attribute of each name the filter mentions |
| `FilterTheorems.ExistsIff` | logging/src/logging/filter.cpp:381-411 | a record passes "exists" if and only if some attribute in some list has the name, and "not exists" if and only if none has |
| `FilterTheorems.LookupIsFirst` | logging/src/logging/filter.cpp:225-235 | what a filter looks at is the value of the first attribute with the name, over the lists in order |
| `FilterTheorems.ChainVerdict` | logging/src/logging/filter.cpp:561-619 | filters chained by "and" accept exactly when all of them do, by "or" when at least one does, by "xor" when an odd number does |
| `FilterTheorems.SeverityIsMonotone` | logging/src/logging/filter.cpp:366-379 | a filter without "xor" that accepts a record accepts it at every higher severity |
| `FilterTheorems.SeverityIsInclusive` | logging/src/logging/filter.cpp:366-379 | a severity filter accepts its own level and not the one below |
| `FilterTheorems.ComparisonsAreComplements` | logging/src/logging/filter.cpp:423-559 | "equal" and "not equal" are complements on every record; "less" and "at least", and "greater" and "at most", are complements exactly on records whose attribute exists and converts, and on all others only "not equal" accepts |
| `FilterTheorems.Trichotomy` | logging/src/logging/filter.cpp:423-513 | where the attribute converts, exactly one of "less", "equal" and "greater" accepts if and only if it is not a comparison of strings one of which is a proper prefix of the other |
| `FilterTheorems.NumbersCompareAsNumbers` | logging/src/logging/filter.cpp:73-211 | an attribute whose number is a value of the operand's type is compared with it as a number, for all six comparisons and all three numeric types |
| `FilterTheorems.FloatsAreCutTowardsZero` | logging/src/logging/filter.cpp:105-107 | a floating attribute equals a signed operand exactly if it lies between it and the next number away from zero |
| `FilterTheorems.FlagsCompareWithNonZero` | logging/src/logging/filter.cpp:189-199 | a flag is compared with whether the attribute, cut towards zero, is other than zero, with false before true |
| `FilterTheorems.TextComparesWithText` | logging/src/logging/filter.cpp:115-150 | only text, and an attribute without a value as the empty text, equals or precedes text |
| `FilterTheorems.OwnValueIsEqual` | logging/src/logging/filter.cpp:73-113 | an attribute with the operand's own value equals it if and only if it is not an unsigned number above the largest signed one |
| `FilterTheorems.TextGreaterIs` | logging/src/logging/filter.cpp:36-57 | the hand-written `>` is the converse of `<` except between a string and its proper prefix, where it is `<` itself |
| `FilterTheorems.AtMostIff` | logging/src/logging/filter.cpp:413-559 | "at most" means "less or equal" for every operand if and only if it is not a string of which one is a proper prefix of the other |

## Left out

- The sequence counter of a lock folder is assumed never to restart, numbers to stay within 2^31 - 1, and other clients not to create nodes with an issued number; without these the names do not order the clients.
- A reconnect that itself throws, and the connection's session set-up, are not modelled: a reconnect is counted, and a lost session is an event to the watchers.
- Serialisation of values with msgpack, and the numeric kinds beyond signed 64-bit integers and floating numbers (an unsigned operand is one of the integers).
- Floating-point rounding: doubles are reals, in increments, in filters and in the ceiling of the pool target.
- The standalone get, delete, put and children-subscription actions: each is one request, or a shorter form of the subscription.
- The prefix extraction of the permission check, the framing of the stored table and the bookkeeping of its scopes.
- Engine.EngineObject.Enqueue: what other threads do between the dispatch and the resizing, which take the lock separately, and a spawn that fails for another reason than the limit are not modelled; the dispatch and the resizing are one step.
- Engine.EngineObject.RebalanceEvents: clocks and workers decide an offer through a parameter; what a worker does with its load is not modelled.
- The worker's own state machine (`node/src/node/slave/machine.cpp`) beyond how it wires a request, its timers, isolates, and the statistics it reports.
- The peer bookkeeping and the balancers of the proxy: which peer is chosen, and whether an error is recoverable, are inputs.
- ProxyReplay.RetryTransparency: excludes runs in which a send throws, the client fails or disconnects, or the client speaks after its choke; `ProxyContents` and `ProxyResponse` cover those.
- FilterLanguage.FindAttribute: characters are compared as code points, where the original compares signed bytes; conversions of doubles outside the 64-bit range are undefined there and truncated here.
- The representation reader takes a reference to the second element before it checks the size; only the value it reads is modelled. Which of two errors is thrown is not distinguished.
- A non-negative signed number is taken to read as an unsigned one, as the printed form of a severity relies on; the dynamic value type is not part of this repository.
- The null filter, the set of active filters and its expiry, and the cluster-wide distribution of filters.
- The other plugins (unicat, uniresis, chrono, ipvs, metrics, graphite, docker, urlfetch, elasticsearch, elliptics, eblob, mongo, postgres, python, echo): mostly input and output, or too small to add a hard property.
