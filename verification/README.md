# Grape-Dag: verified models

A Dafny model of the parts of the Grape-Dag node whose correctness depends on whole
runs, with proofs about every input, every run or every reachable state:

- `LockFreeQueue`, `QueueCounts`, `QueueLostToken`, `QueueProgress`, `QueueLockFree`: the
  lock-free FIFO queue as a transition system over its atomic steps, with any number of
  threads.
- `StateStore`, `StateStoreProofs`, `StateStoreReads`, `StateStoreDiffs`: the transactional
  contract state store with its undo journal, checkpoint stack and diff collector.
- `Ledger`, `LedgerProofs`: the balance index (wallet cache over pins) and the plain
  ledger it must agree with.
- `Tips`, `TipsProofs`, `TipLists`, `LocalDag`, `Weights`: tip selection, confirmation counting,
  local additions and cumulative weights.
- `TopoSort`, `DepthSearch`, `SharedStack`: the DAG searches.
- `PinChain`, `PinRebuild`, `Relink`, `PeerRuns`, `Snapshot`, `ContractPool`: repair of
  the pin chain, relinking of vertices from peers, the balance snapshot, contract batches
  and pools.
- `Wrappers`, `Sequences`, `Iteration`: shared helpers.

`dafny verify dfyconfig.toml` checks the whole project. Objects that the source updates
in place are classes whose methods are proved against functions on values; the theorems
are about those functions. Ids, signatures, wallets and addresses are abstract values
with equality; random choices are non-deterministic; clocks, the network and signatures
do not appear. Each module keeps the fields of a pin, vertex or transaction that its
operations read.

Where the code does not do what one would expect of it, the model follows the code, a
lemma gives an input that shows the difference, and another says exactly when the
expected property holds:

- With the token channel on, any two consumers can lose a wake-up: one retries without
  its token, and a value is left waiting with the channel empty
  (`QueueLostToken.TwoConsumersLoseAToken`). A set of consumers wastes no token in any
  run exactly when it has at most one member (`QueueLostToken.TokensKeptIff`).
- An account without a nonce is deleted by the revert of any write to it
  (`StateStoreProofs.EmptyNonceIsLost`, `StateStoreProofs.RevertRestoresIff`).
- A slot that was non-zero when diff capture started can lose its diff entry
  (`StateStoreDiffs.SlotDiffIsDropped`, `StateStoreDiffs.SlotOverlayIff`).
- Asking for the balances of all known wallets fails while some wallet is known only
  through a refused debit (`LedgerProofs.RefusedDebitFailsTheTool`,
  `LedgerProofs.KnownBalancesAddUp`).
- Without a star (width 0, or any multiple of 256 in the configuration) there is one tip.
  All choices except the plain random one approve it twice, so that it is confirmed after
  one approval (`TipsProofs.NoStarRun`, `TipsProofs.NoStarOneTip`). Every vertex other
  than genesis takes two approvals, in all runs, exactly when there is a star or the choice
  is the plain random one (`TipsProofs.VertexLifeCycleIff`).
- Genesis, which the whole star approves, becomes a tip again while it is confirmed
  (`TipsProofs.StarOfThree`) and can be handed to two pins (`TipsProofs.StarOfFive`). It
  has the life of any other vertex, in all runs, exactly with a star of one or two, or
  with none and the plain random choice (`TipsProofs.GenesisLifeCycleIff`).
- Link targets are listed per major number, so a shared major number can make an
  acyclic link set unsortable (`TopoSort.SharedMajorMakesACycle`,
  `TopoSort.CycleNeverSorted`).
- A second genesis takes the place of the first and parts it from its successor; no
  other arrival parts neighbours (`PinChain.SecondGenesisSeparates`,
  `PinChain.InsertKeepsNeighboursIff`).
- Two pins that arrive newest first, with a gap between them, stay in the wrong order and
  are asked about for ever (`PinRebuild.WrongOrderArrives`, `PinRebuild.PinsRebuiltIff`).
- A vertex that declares itself as a target misses itself for good
  (`Relink.SelfDeclared`, `Relink.ReconcileCompletesIff`).
- A vertex relayed by a peer that still misses targets arrives with fewer declared
  targets (`PeerRuns.RelayLosesTarget`, `Relink.RelayIsFaithfulIff`).
- A vertex never becomes an approver of the targets that a later pass links
  (`PeerRuns.LateTargetIsNotApproved`, `PeerRuns.MissedIsNeverApproved`,
  `Relink.RelinkedIsNotApproved`).
- A vertex that finds only some of its targets on arrival is never linked to those
  (`PeerRuns.PartlyFoundIsNotLinked`, `PeerRuns.LinksLeadToTargets`).
- A target that a peer finds in pins only, such as genesis, can be confirmed without ever
  having been counted; the vertex handed to the next pin is then nil
  (`PeerRuns.PinnedGenesisIsUnknown`, `PeerRuns.KnowsConfirmedIff`).
- The length of a snapshot is announced in 32 bits. From 2^31 wallets up to 2^32 it is
  negative and none is read (`Snapshot.HugeSnapshotIsLost`); for every number of wallets,
  a fresh peer gets all balances exactly when the newest pin itself holds the entries
  that are not read (`Snapshot.SnapshotCompleteIff`).
- Fuel limits from 2^63 on are reduced to 64 bits and can overrun the batch limit
  (`ContractPool.HugeFuelIsSelected`, `ContractPool.WithinLimitIff`).
- Pool operations on one id that interleave can leave it in both pools
  (`ContractPool.InterleavedOverlap`). All interleavings keep it apart exactly when the
  operations do not both confirm and submit it (`ContractPool.ApartIff`).

## Model

| member | source | states |
|---|---|---|
| `LockFreeQueue.StepKeepsInv` | queues/lfqueue.go:59-140 | every atomic step of every thread keeps the queue invariant: the linked holders form one chain, head and tail point into it in order, the tail lags by at most one, private nodes stay private, and stale views stay true |
| `LockFreeQueue.RunKeepsInv` | queues/lfqueue.go:46-129 | the invariant holds in every state of every interleaving from a new queue |
| `LockFreeQueue.FifoOrder` | queues/lfqueue.go:59-129 | in every reachable state the values taken are a prefix of the values linked, head never passes tail, the tail lags the last node by at most one, and no thread has followed a nil pointer |
| `LockFreeQueue.EnqueueLinearizes` | queues/lfqueue.go:59-89 | a completed Enqueue appends its value to the abstract queue in exactly one step between call and return |
| `LockFreeQueue.DequeueLinearizes` | queues/lfqueue.go:99-129 | a completed Dequeue that returns a value removed the oldest one in exactly one step; one that returns nil changed nothing and overlapped an instant at which the queue was empty |
| `LockFreeQueue.NilWasEmpty` | queues/lfqueue.go:104-115 | a Dequeue that has read a nil successor overlapped an empty queue |
| `QueueCounts.QuiescentLen` | queues/lfqueue.go:91-93 | when no call is in progress the counter equals the number of values waiting |
| `QueueCounts.ReturnedLen` | queues/lfqueue.go:120-125 | the length a Dequeue returns is the counter after its removal, and the number of values waiting when no other call is in progress |
| `QueueCounts.ChannelBounded` | queues/lfqueue.go:46-83 | in every run the channel holds at most 32768 tokens |
| `QueueCounts.WaitingBalance` | queues/lfqueue.go:59-129 | with the channel on, the values waiting equal the tokens in the channel plus those unsent, held and wasted |
| `QueueCounts.OneConsumerTokens` | queues/lfqueue.go:59-129 | with any producers and one consumer no token is wasted, no Dequeue returns nil, and tokens in the channel never exceed the values waiting |
| `QueueLostToken.TwoConsumersLoseAToken` | queues/lfqueue.go:99-129 | for any two consumers a run that ends at rest with a value waiting, an empty channel and a blocked consumer |
| `QueueLostToken.TokensKeptIff` | queues/lfqueue.go:59-129 | over all runs in which only the given threads dequeue: no token is ever wasted, and at rest each waiting value has its token, exactly when there is at most one such thread |
| `QueueProgress.RetryMeansProgress` | queues/lfqueue.go:59-129 | between two visits of a thread to the top of its loop some swap has succeeded, its own swing of the tail included |
| `QueueLockFree.LockFree` | queues/lfqueue.go:59-129 | lock-freedom without the channel: in every run, a stretch in which no call completes has a length bounded by a function of the number of threads alone |
| `StateStore.Storage.constructor` | vm/server.go:132-139 | a new store is empty |
| `StateStore.Storage.LookupAccount` | vm/server.go:141-144 | returns the stored account, if any |
| `StateStore.Storage.LookupValue` | vm/server.go:146-163 | returns the slot and whether it exists; what that is, the next rows say |
| `StateStoreReads.ReadBack` | vm/server.go:146-195 | after a write the slot reads as the value written and exists, and every other slot of a known account reads as before |
| `StateStoreReads.NeverWrittenReadsZero` | vm/server.go:146-326 | in every run from an empty store a slot never written reads as the zero word and does not exist |
| `StateStoreReads.ReadsSlot` | vm/server.go:146-163 | a known account reads its own slot, an unknown one reads as the zero word |
| `StateStoreReads.ZeroWord` | vm/server.go:29-29 | the zero word is 32 zero bytes |
| `StateStoreReads.AccountReadBack` | vm/server.go:197-218 | a written account is stored under its address without the prefix; other accounts and all slots of known accounts stay |
| `StateStoreReads.ValueMakesAccount` | vm/server.go:165-173 | a slot write creates a missing account with zero balance and nonce and without code, and changes no other |
| `StateStoreReads.NoCaptureNoDiffs` | vm/server.go:165-326 | while nothing is captured no run changes the diffs |
| `StateStore.Storage.StoreAccount` | vm/server.go:197-218 | the whole new state of an account write: account, empty storage, journal record, diff entry |
| `StateStore.Storage.StoreValue` | vm/server.go:165-195 | the whole new state of a slot write, with the account created first when it is missing |
| `StateStore.Storage.PushCheckpoint` | vm/server.go:274-277 | remembers the length of the journal |
| `StateStore.Storage.UndoRecord` | vm/server.go:285-311 | undoes one journal record in data and diffs |
| `StateStore.Storage.RevertCheckpoint` | vm/server.go:279-316 | undoes the records above the newest checkpoint, newest first; panics, changing nothing, without a checkpoint |
| `StateStore.Storage.CommitCheckpoint` | vm/server.go:318-326 | drops the newest checkpoint and keeps the journal; panics without one |
| `StateStore.Storage.CaptureDiffs` | vm/server.go:576-584 | switches diff capture on; panics when it was on |
| `StateStore.Storage.ResetDiffs` | vm/server.go:623-630 | switches diff capture off and empties the diffs |
| `StateStoreProofs.StackOfCopies` | vm/server.go:165-326 | over every run of writes and nested checkpoint, commit and revert, the store shows what a stack of full copies shows, and panics exactly where that stack is empty |
| `StateStoreProofs.StackOfCopiesFromEmpty` | vm/server.go:146-326 | the same from an empty store, as accounts and read values |
| `StateStoreProofs.NoncedRunsAreClean` | vm/server.go:197-218 | runs whose account writes carry a nonce meet the condition of the stack-of-copies theorem |
| `StateStoreProofs.RevertRestoresIff` | vm/server.go:274-326 | checkpoint, any well-bracketed operations, revert: the data comes back exactly when no account lacked a nonce at the checkpoint |
| `StateStoreProofs.EmptyNonceIsLost` | vm/server.go:279-340 | an account without a nonce is lost by the revert of a write to it |
| `StateStoreProofs.SameReads` | vm/server.go:141-163 | stores that agree on accounts and slots give the same answers |
| `StateStoreProofs.RevertsAssignIntoStores` | vm/server.go:279-316 | in every run each slot record names an account storage that exists, so a revert never assigns into a missing map |
| `StateStoreDiffs.DiffEntriesAreLive` | vm/server.go:69-116 | from an empty capture with no open checkpoint, through every run, each recorded diff entry equals the live value |
| `StateStoreDiffs.SlotOverlayIff` | vm/server.go:165-316 | laying the slot diffs over the start gives the live slot in every run exactly when the slot read as zero at the start |
| `StateStoreDiffs.SlotDiffIsDropped` | vm/server.go:279-316 | a run that drops the diff entry of a slot that was non-zero at the start |
| `StateStoreDiffs.AccountOverlayIff` | vm/server.go:197-316 | laying the account diffs over the start gives exactly the live accounts, absences included, in every run of writes with nonces, exactly when no starting account lacked one |
| `StateStoreDiffs.EmptyNonceBreaksOverlay` | vm/server.go:279-316 | a run that breaks the account overlay when a starting account lacks a nonce |
| `Ledger.WalletCache.constructor` | dag/slice.go:38-43 | a new cache is empty |
| `Ledger.WalletCache.Add` | dag/slice.go:54-101 | adds an entry for the credited balance, starting from the cached or pinned one |
| `Ledger.WalletCache.Sub` | dag/slice.go:104-134 | adds an entry for the debited balance, or refuses and leaves at most an empty list |
| `Ledger.WalletCache.Get` | dag/slice.go:137-146 | the newest cached balance, if there is one |
| `Ledger.WalletCache.Remove` | dag/slice.go:150-171 | drops the wallet from the cache |
| `Ledger.WalletCache.UpdateBalanceIfValid` | dag/node.go:207-230 | accepts or refuses a payment: debit, then credit; a payment to oneself changes nothing |
| `Ledger.NodeTxPin.SetGenesis` | dag/pin.go:120-135 | the first pin gives the genesis wallet its amount |
| `Ledger.NodeTxPin.LatestBalance` | dag/pin.go:184-194 | the balance in the newest pin that knows the wallet |
| `Ledger.NodeTxPin.BalanceForWallet` | dag/pin.go:299-310 | the cached balance, else the pinned one |
| `Ledger.NodeTxPin.CollectBalances` | dag/pin.go:363-390 | the last balance collected for every sender and recipient is the one looked up |
| `Ledger.NodeTxPin.FillPin` | dag/pin.go:392-424 | the new pin holds the looked-up balance of every wallet the sites mention, and the cache forgets exactly those wallets |
| `Ledger.NodeTxPin.AddPin` | dag/pin.go:341-437 | pin formation moves the balances of all touched wallets from the cache into a new pin |
| `Ledger.NodeTxPin.GetBalances` | dag/pin.go:652-691 | for any list of wallets, repeats included: the looked-up balance of each at its place, or failure exactly when one is unknown |
| `Ledger.SortByTimeSorts` | dag/pin.go:358-361 | sorting the sites keeps them and orders them by time |
| `Ledger.SortByTimeIsStable` | dag/pin.go:358-361 | sites with the same time keep their order |
| `LedgerProofs.PayAt` | dag/node.go:207-230 | what a payment does to every balance and which wallets it makes known |
| `LedgerProofs.PayRecords` | dag/slice.go:54-134 | an accepted payment adds one entry with its id and the new balance to the lists of both wallets and leaves all other lists alone |
| `LedgerProofs.FormPinAt` | dag/pin.go:341-437 | forming a pin changes no balance |
| `LedgerProofs.FormPinMoves` | dag/pin.go:341-437 | the new pin holds the balance of exactly the wallets that the sites mention and the ids of the sites in order of time; the cache forgets exactly these wallets |
| `LedgerProofs.IndexIsReplay` | dag/pin.go:184-437 | over every run of payments and pin formations the balance looked up for each wallet is the plain replay of the accepted payments, and the same payments are accepted |
| `LedgerProofs.IndexIsReplayFromGenesis` | dag/generate.go:22-49 | the same from genesis |
| `LedgerProofs.RefusalChangesNothing` | dag/slice.go:104-134 | a refused payment changes no balance, even where it leaves an empty list |
| `LedgerProofs.RunConserves` | dag/node.go:207-230 | over every run balances stay non-negative and the known wallets together hold what they held at the start |
| `LedgerProofs.KnownBalancesAddUp` | tools/txgen/generator.go:277-295 | the balances of all known wallets, in any order, add up to the genesis amount; the request fails exactly when a wallet is known only through a refused debit |
| `LedgerProofs.RefusedDebitFailsTheTool` | dag/pin.go:609-691 | one refused payment of an unknown wallet makes the request fail |
| `Tips.ConfirmationCounter.constructor` | dag/confirmation.go:37-44 | a new counter knows no vertex |
| `Tips.ConfirmationCounter.IsTip` | dag/confirmation.go:20-25 | whether the vertex is a current tip |
| `Tips.ConfirmationCounter.Add` | dag/confirmation.go:46-58 | the whole new state: the vertex enters as a tip, each target gains an approver and moves to the confirmed at its third entry |
| `Tips.ConfirmationCounter.Pop` | dag/confirmation.go:60-70 | hands out each confirmed vertex once and forgets them |
| `Tips.ConfirmationCounter.GetTips` | dag/confirmation.go:27-35 | exactly the cached tips, each once |
| `Tips.WeightedRandomWalk` | dag/weights.go:184-205 | the walk goes from approver to approver and passes no tip: it ends at the first tip, or gives up after exactly as many steps as links and approval limit allow, or panics at a vertex without approvers; from a tip, or without links, it stays |
| `Tips.WeightedSelect` | dag/weights.go:207-274 | one of the approvers; none without a sampler or without approvers, where mcmc++ and random panic |
| `Tips.ApproversAre` | dag/dag.go:526-545 | the approvers a vertex knows of, or else the sources of the links to it |
| `Tips.DropLinksFrom` | dag/weights.go:108-117 | removes exactly the links that start at the vertex |
| `Tips.WeightedMcmc` | dag/weights.go:77-127 | from current tips it chooses only current tips and does not panic: a lone one twice, from two or more two different ones |
| `Tips.RandomPair` | dag/add.go:47-60 | a lone candidate once, from two or more two different ones |
| `TipsProofs.OpenSlotsConserved` | dag/confirmation.go:46-58 | for every width and algorithm, once the star is built every run of local additions conserves the open approval slots; the tip count stays between half of them and all of them and never falls below the width; there are two tips exactly when there is a star or the plain random choice makes one |
| `TipsProofs.PairOpen` | dag/confirmation.go:46-58 | a vertex that approves two tips takes as many slots as it brings |
| `TipsProofs.StarOpen` | dag/add.go:24-25 | how a vertex of the star changes the number of open slots |
| `TipsProofs.NoStarOneTip` | dag/add.go:24-62 | at width 0, except under the plain random choice, every state of every run has exactly one tip |
| `TipsProofs.VertexLifeCycle` | dag/confirmation.go:46-70 | in every reachable state, for every width and algorithm, a vertex other than genesis is a tip with fewer approvals than its quota, or has exactly the quota and is waiting confirmed or was handed to exactly one pin; the quota is two, or one where lone tips are approved twice |
| `TipsProofs.VertexLifeCycleIff` | dag/add.go:24-62 | in all runs every vertex other than genesis lives with a quota of two exactly when the width is at least 1 or the choice is the plain random one |
| `TipLists.TipListsName` | dag/confirmation.go:46-58 | in every reachable state the list of a tip other than genesis is the tip followed by exactly the vertices that approve it; that of genesis names genesis and such vertices only |
| `TipsProofs.NoStarRun` | dag/weights.go:82-127 | two payments at width 0 leave genesis and the first vertex confirmed with one approval each |
| `TipsProofs.GenesisReturns` | dag/confirmation.go:46-70 | in every reachable state genesis is a tip exactly when the number of its entries is not 2 modulo 3, is or was confirmed exactly from two entries on, and was confirmed at most (entries + 1) / 3 times; an approver enters it once, or twice at width 0 |
| `TipsProofs.GenesisLifeCycleIff` | dag/add.go:24-62 | in all runs genesis has the life of any other vertex exactly for width 1 or 2, or width 0 with the plain random choice |
| `TipsProofs.StarOfThree` | dag/add.go:24-25 | for every width from three on, a run that leaves genesis both a tip and confirmed |
| `TipsProofs.StarOfFive` | dag/confirmation.go:60-70 | for every width from five on, a run that hands genesis to two pins |
| `LocalDag.Dag.constructor` | dag/generate.go:22-69 | the DAG starts with genesis as its only vertex and tip, and with the configured width cut to eight bits |
| `LocalDag.CandidateLinks` | dag/add.go:31-40 | all links from the candidates to their targets |
| `LocalDag.Dag.ChooseTips` | dag/add.go:23-62 | genesis while the star grows, afterwards a lone tip once (random) or twice, or two different current tips |
| `LocalDag.Dag.AddTxDag` | dag/add.go:17-100 | a payment is accepted exactly when the ledger accepts it, is then added with what the runs above allow it to approve, and the invariant of all runs is kept, for every width and algorithm, with the links of every vertex leading to exactly its targets; any other transaction changes neither DAG nor counter; under mcmc+ the weights count the approval chains afterwards |
| `LocalDag.LinksAreTargets` | dag/add.go:69-73 | in every state a vertex has a link for each of its targets and, unless a payment with its id was refused before, no other |
| `LocalDag.Dag.AddPayment` | dag/add.go:23-100 | the same for a transaction with a payment: ledger, DAG, counter and links after it is accepted or refused; a refused one leaves its links behind |
| `LocalDag.Dag.AddToDag` | dag/dag.go:268-312 | links, order and counter gain the vertex and stay consistent |
| `Weights.LinkTargets` | dag/dag.go:281-292 | the vertex becomes the last approver of each of its targets |
| `LocalDag.Dag.GetConfirmedSites` | dag/site.go:8-12 | a pin receives the counted vertex of each confirmed id, each once, and none is nil |
| `Weights.GrowMatches` | dag/dag.go:281-292 | approver lists hold exactly the vertices that declare the target |
| `Weights.UpdateCumWeights` | dag/weights.go:173-182 | whatever the weights were, one backwards pass makes each the step times the number of approval chains that end at the vertex |
| `Weights.SumSources` | dag/weights.go:175-178 | the sum over the approvers, once all later weights are right |
| `Weights.ChainsAreChains` | dag/weights.go:173-182 | the counted set holds exactly the chains of approvals |
| `Weights.GrowLinked` | dag/dag.go:281-294 | every addition keeps approvers later in the order than what they approve |
| `TopoSort.GetTargetLists` | dag/dag.go:547-554 | the targets of all links, listed under the major number of the source |
| `TopoSort.TopologicalSort` | dag/utils.go:85-132 | without a cycle among the children the sort ends, within as many nested calls and rounds as there are nodes, with a permutation in which each node comes after its link targets |
| `TopoSort.Sorter.Visit` | dag/utils.go:92-123 | the visit terminates without a cycle and does what the depth-bounded visit does |
| `TopoSort.SortedIsSorted` | dag/utils.go:85-132 | for any links, a sort that ends has sorted |
| `TopoSort.CycleNeverSorted` | dag/utils.go:85-132 | with a cycle among the children no number of nested calls and rounds is enough |
| `TopoSort.DistinctMajorsSuffice` | dag/dag.go:547-554 | with distinct major numbers acyclic links are enough |
| `TopoSort.SharedMajorMakesACycle` | dag/dag.go:547-554 | with a shared major number they are not |
| `DepthSearch.Visit` | dag/search.go:222-241 | on any graph the visit ends, adds only vertices it reaches, none twice, and with each its approvers |
| `DepthSearch.DfSearch` | dag/search.go:247-255 | exactly the vertices reachable along approvers that have at most one approver, each once |
| `DepthSearch.Tips` | dag/search.go:229-233 | the visited vertices with at most one approver |
| `SharedStack.TipSearch.Visit` | graph/dgraph.go:125-144 | every call keeps successors of visited vertices visited or on the shared stack, and empties the stack unless the vertex has no edges |
| `SharedStack.GetTipVertices` | graph/dgraph.go:146-156 | exactly the vertices reachable from genesis with fewer than two edges |
| `SharedStack.SliceSearch.Visit` | dag/traverse.go:11-31 | the same for the search that enters only known vertices that are no pins |
| `SharedStack.TraverseDagSlice` | dag/traverse.go:33-46 | exactly the start ids and what edges between known non-pin vertices lead to from them, each once |
| `SharedStack.KeptIsExact` | dag/traverse.go:11-46 | with the stack empty the visited vertices are exactly the reachable ones |
| `PinChain.PinList.InsertIfNotFound` | dag/pin.go:196-297 | the list after an insert: duplicates ignored, before the successor, at the end, genesis replaced or dropped |
| `PinChain.InsertPlaces` | dag/pin.go:212-263 | for every list and arrival: where the pin stands afterwards and that all others stay in order; a second genesis stands in place of the first |
| `PinChain.PinList.InsertBeforeSuccessor` | dag/pin.go:248-258 | inserts before the first pin that names it, if any |
| `PinChain.PinList.SyncPin` | dag/syncpin.go:28-65 | one request for every pin whose predecessor is not right before it |
| `PinChain.InsertKeepsDistinct` | dag/pin.go:196-297 | whatever arrives, no pin is ever in the list twice |
| `PinChain.InsertKeepsNeighboursIff` | dag/pin.go:196-297 | whatever arrives, a pin and the successor right behind it stay together, except exactly when a new genesis takes the place of the pin |
| `PinChain.SecondGenesisSeparates` | dag/pin.go:214-226 | a second genesis parts the first one from its successor |
| `PinChain.ArrivalsKeepNeighbours` | dag/pin.go:196-297 | any pins of one chain, in any order and with repeats, keep all neighbours together |
| `PinRebuild.PutIsInsert` | dag/pin.go:196-297 | inserts of pins of one chain, in terms of their numbers |
| `PinRebuild.AskedIsWanted` | dag/syncpin.go:28-65 | on a list in order one search asks for exactly the missing predecessors, each once |
| `PinRebuild.AskedDescends` | dag/syncpin.go:28-65 | on a list in order the newest missing predecessor is asked for first |
| `PinRebuild.PutAllWanted` | dag/pin.go:196-297 | missing predecessors may arrive in any order: the list stays in order and gains exactly them |
| `PinRebuild.FromNewest` | dag/syncpin.go:28-65 | from the newest pin alone each round asks for exactly the missing predecessor, until nothing is asked |
| `PinRebuild.ChainIsRebuilt` | dag/syncpin.go:28-65 | any pins of a chain that are in order and include the newest grow back into the whole chain, after which no request is made |
| `PinRebuild.OutOfOrderAsksForever` | dag/syncpin.go:28-65 | a list with two pins in the wrong order asks for more whatever arrives |
| `PinRebuild.RebuiltIff` | dag/syncpin.go:28-65 | the search comes to rest exactly for lists in order |
| `PinRebuild.PinsRebuiltIff` | dag/syncpin.go:28-65 | on the pins: starting from any different pins of a chain, some round makes no request exactly when they were in order |
| `PinRebuild.WrongOrderArrives` | dag/pin.go:196-297 | two pins with a gap between them that arrive newest first form a list that makes requests in every round |
| `Relink.Dag.InsertTxDag` | dag/insert.go:39-182 | the whole new state of an arrival, approver lists, counter and ledger included: linked to what is found, an approver of what is found in the DAG, missing the rest, refused exactly when the ledger refuses the payment, and the error it reports |
| `Relink.Dag.Search` | dag/insert.go:77-90 | splits the declared ids into found in the DAG, found at all and not found |
| `Relink.FoundJoin` | dag/insert.go:77-90 | the ids of a list are looked for one after the other, in order |
| `Relink.FoundAsItIs` | dag/insert.go:77-90 | a list of known ids is found as it is, one of unknown ids not at all |
| `Relink.Dag.InsertIfNotExist` | dag/insert.go:13-23 | vertices from a peer are stored once, with all targets missing |
| `Relink.Dag.ReconcileMissingTargets` | dag/dag.go:570-618 | the whole new state of a pass, and requests for exactly what is still missing |
| `Relink.Dag.RelinkSite` | dag/dag.go:584-605 | links what one vertex misses and the DAG has |
| `Relink.RunAccounted` | dag/insert.go:77-111 | in every run the declared ids of every vertex are the disjoint union of linked and missing ids, and the approver lists hold exactly the vertices that found the target in the DAG |
| `Relink.RelinkedIsNotApproved` | dag/dag.go:570-618 | after a pass a vertex is in the approver lists of all its targets exactly when it was before and the pass linked nothing for it |
| `Relink.ReconcileCompletesIff` | dag/dag.go:570-618 | one pass leaves nothing missing exactly when every missing id is in the DAG and no vertex misses itself |
| `Relink.DeclaredIsLinked` | dag/dag.go:570-618 | after any run one pass links for every vertex exactly what it declared, if and only if every id still missing is in the DAG and none is the vertex itself |
| `Relink.Dag.GetConfirmedSites` | dag/site.go:8-12 | hands out the counted vertex of each confirmed id, each once; one is nil exactly when it has not been counted |
| `PeerRuns.ApproversStay` | dag/dag.go:281-292 | whatever happens after its arrival, a vertex gains and loses no place in an approver list |
| `PeerRuns.MissedIsNeverApproved` | dag/dag.go:570-618 | a target that a vertex missed once never has it as an approver, in any run that follows |
| `PeerRuns.LateTargetIsNotApproved` | dag/dag.go:596-605 | a run in which a vertex is linked to its late target and never becomes its approver |
| `PeerRuns.RelayLosesTarget` | dag/node.go:98-124 | a run after which a vertex is sent on without the target it declared |
| `PeerRuns.LinksLeadToTargets` | dag/insert.go:95-178 | in every run the links from a vertex lead to its targets, and to all of them exactly unless it found some of the declared ids on arrival and missed others |
| `PeerRuns.PartlyFoundIsNotLinked` | dag/insert.go:92-111 | a run in which a vertex has a target on arrival and no link to it |
| `PeerRuns.HandedOver` | dag/dag.go:252-263 | a vertex new to the DAG is stored as first handed over, with no target linked and all of them missing |
| `PeerRuns.KnowsConfirmedIff` | dag/confirmation.go:46-70 | over every run of arrivals, hand-overs, passes and pops: at all times every confirmed id has been counted exactly when at no time an id that has not been counted itself has been entered three times |
| `PeerRuns.PinnedGenesisIsUnknown` | dag/insert.go:77-90 | while a peer receives a star of three or more vertices, genesis is at some time confirmed and not counted |
| `Relink.SelfStaysMissing` | dag/dag.go:585-595 | a vertex that misses itself does so after every pass |
| `Relink.SelfDeclared` | dag/dag.go:585-595 | an arrival that leaves something missing although all declared ids are in the DAG |
| `Relink.RelayIsFaithfulIff` | dag/node.go:98-124 | a relayed vertex keeps its declared ids exactly when the sender misses none |
| `Snapshot.GetPinnedBalances` | dag/pin.go:635-650 | the forward fold agrees, for every wallet, with the newest-first lookup over the pins before the first number above the limit |
| `Snapshot.MergeIsLookup` | dag/pin.go:184-194 | overwriting forwards and looking up newest first give the same balance |
| `Snapshot.NothingCutIff` | dag/pin.go:641-644 | the fold sees all pins exactly when no number is above the newest; non-decreasing numbers are enough |
| `Snapshot.Flatten` | dag/sync.go:267-272 | the list holds every entry of the map once |
| `Snapshot.RespondLatestBalances` | dag/sync.go:245-272 | height, length and entries of all pinned balances, as the hand-over below needs them, or an error without a pin |
| `Snapshot.Peer.HandleLatestBalances` | dag/sync.go:295-339 | the peer's pins after a message, including the repeated one and the height mismatch |
| `Snapshot.HandOver` | dag/sync.go:245-339 | the answer of a leader with a pin is accepted by every peer that is not ready, which is then ready and, if the length fits, has the balance of the leader for every wallet the leader knows and its own for all others |
| `Snapshot.OverlayIsMerge` | dag/sync.go:324-335 | reading the first n pairs overlays the first n entries |
| `Snapshot.SnapshotIsFaithful` | dag/sync.go:258-336 | a peer that applies the snapshot gets the leader's pinned balance for every wallet the leader knows and keeps its own for the others |
| `Snapshot.SnapshotCompleteIff` | dag/sync.go:258-336 | for every number of wallets, a fresh peer gets every leader balance exactly when the newest pin itself holds each entry beyond the length announced |
| `Snapshot.HugeSnapshotIsLost` | dag/sync.go:263-264 | from 2^31 wallets in an old pin up to 2^32 a fresh peer learns of none of them |
| `ContractPool.GetAllUnconfirmed` | smc/store.go:59-89 | the batch of a scan of the whole pool in some order: transactions of the pool, one per sender, with the nonce of its account |
| `ContractPool.BatchOnePerSender` | smc/store.go:59-89 | for every scan order at most one transaction per sender, all of them scanned and with the nonce of the account |
| `ContractPool.EligibleIff` | smc/store.go:70-70 | below 2^64 a transaction qualifies exactly when its sender has an account with the same nonce |
| `ContractPool.BatchWithinLimit` | smc/store.go:59-89 | total fuel within the limit, and no skipped transaction of an unselected sender fits in what is left |
| `ContractPool.WithinLimitIff` | smc/store.go:69-75 | every scan order stays within the limit exactly when each eligible transaction's fuel survives the reduction to 64 bits or is refused after it |
| `ContractPool.HugeFuelIsSelected` | smc/store.go:69-75 | a fuel limit of 2^63 is selected under a limit of 100 |
| `ContractPool.Store.Put` | smc/pool.go:23-29 | one pool gains the transaction under its id |
| `ContractPool.Store.Remove` | smc/pool.go:31-37 | one pool loses the id |
| `ContractPool.Store.Confirm` | smc/store.go:26-30 | the two pool calls of a confirmation |
| `ContractPool.Store.Drop` | smc/store.go:32-35 | the pool call of a removal |
| `ContractPool.Store.Submit` | smc/store.go:37-41 | the two pool calls of a submission |
| `ContractPool.OpMoves` | smc/store.go:26-41 | which pool holds the id after each operation, with which transaction, and that nothing else changes |
| `ContractPool.OnlyOwnCallsMatter` | smc/pool.go:23-37 | however calls interleave, what happens to an id depends only on the calls for that id |
| `ContractPool.PoolsStayApart` | smc/store.go:26-41 | an id whose own operations do not overlap is never left in both pools, however those of other ids interleave |
| `ContractPool.ApartIff` | smc/store.go:26-41 | for any operations running concurrently, every interleaving of their pool calls leaves an id out of one pool exactly when they do not include both a confirmation and a submission of it |
| `ContractPool.InterleavedOverlap` | smc/store.go:26-41 | from any pools, an interleaving of a confirmation and a submission that leaves the id in both |

## Left out

- The lock-free queue is a state machine on values with sequentially consistent atomics; nodes are never reused, as under a garbage collector.
- Contract execution, its effect on pin balances and on nonces: the virtual machine is a separate process.
- Replay of pins on peers and their download: bound up with channels and timers.
- Logs and the direct dump of mapping diffs in the state store: they bypass the journal.
- Byte slices shared between callers and the state store: values are copied in the model.
- Decimal texts of balances and nonces in stored accounts: opaque strings.
- The floating-point weights and samplers: every choice they can make is allowed.
- Rounding of cumulative weights: they are real numbers here; the weight pass of vertices from peers is not modelled.
- The version-collision branch of vertex insertion: off by default.
- The refresh of the lookup tables before a traversal: the tables are inputs.
- Heights of vertices and their depth: no other operation reads them.
- Networking, encodings, signatures and hashes: ids and signatures are abstract.
- The message state machine, the other queues, configuration, statistics, storage and tools: small tables, wrappers or input and output.
- Concurrent calls on the ledger, the counter and the DAG: each runs under one lock and is one step here.
- SharedStack.GetTipVertices: requires every edge to lead to a known vertex, because the search dereferences it.
- SharedStack.TraverseDagSlice: requires the start ids to be known, because the search dereferences them.
- Snapshot.Peer.HandleLatestBalances: requires a message of the shape the leader builds, because other shapes abort the reader.
- TopoSort.TopologicalSort: requires that the children have no cycle, because the sort does not end otherwise, which is proved separately.
- LocalDag.Dag.AddTxDag: requires an id that is not in use, because ids are fresh random UUIDs.
- Relink.Dag.ReconcileMissingTargets: requires the invariant that every insertion keeps.
