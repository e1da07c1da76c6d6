# Entcoin: a verified model of the ledger, the miner and the payment session

Entcoin is a small proof-of-work currency. Its consensus exists twice: `State.replay` folds a whole chain from genesis
over a map of unspent outputs, and a SQLite ledger updates indexed tables block by block, with a 120-header validation
window, undo records, reorganisations, a mempool, a fee-priority miner and pruning. This project models both and proves
that they are the same consensus, that every operation of the ledger keeps it so, and what the parts built on the ledger
(mining, header sync, automatic fees, the EntPay session) may rely on.

How the model is laid out, one module a file:

- `Common`, `Encoding`, `Amounts`, `Transactions`, `Headers`, `Merkle`, `Totals`: integers of fixed width, the
  length-prefixed encoder, emission, transaction and header rules, the Merkle tree, sums over finite maps.
- `Replay` is the reference semantics, and `Guards` shows which of its checks never decide. `Tables` is what
  connecting, disconnecting and pruning do to the tables as values. `Refinement` and `ChainTables` prove the two
  agree, `Undo` and `Horizon` that disconnecting and pruning are exact, `AddressIndex` what the address index lists.
- `Consensus`, `Retarget` and `Maturity` state the rules by number: emission, headers, bodies, transactions, the two
  difficulty schedules and the median, the age of a spent coinbase, each as the exact condition under which the
  reference semantics accepts.
- `Mempool`, `MempoolRules`, `Priority`, `MiningQueues`, `MiningOrder`, `Mining`, `MiningRules`, `MiningChoice`,
  `Candidate`, `MinedBlocks`: admission and rebuild, the priority order, the block candidate and the miner's promise.
- `Worlds` is the ledger as a state machine whose state is a chain, a prune horizon and a mempool; `Runs` proves what
  every run keeps. `Databases` changes the tables row by row in place, `Ledgers` runs each operation on a copy and
  installs it on success, and both are proved against `Tables` and `Worlds`. `Collectors` is the orphan collector,
  `Reorgs` says why it keeps parents with their children, and `Survival` which pending transactions outlive a block.
  `Commitment` says exactly when each operation commits, `Refills` which transactions the mempool holds after a
  reorganisation, a disconnection or an import, `Arrivals` with what times, and `Authenticity` why a transaction keeps
  its worth when the chain under it changes.
- `Locators`, `HeaderSyncs`, `SyncCompleteness`, `Payments`, `PaymentCommits`, `Workers`: block locator, header-first
  sync and what it finds against an honest peer, automatic fee and prepared payments, the dealing out of nonces.
- `ClientStores`, `ClientSessions`, `ClientRuns`, `ClientHistories`, `ClientGuards`, `ClientOutcomes`,
  `ClientManagers`: the EntPay session and its revision-checked writes, its operations as steps, every interleaving of
  those steps with crashes, what an unfinished row says about its payment, what each guard lets through, how sessions
  end and recover, and the manager itself, each of whose operations is one run of the steps.

Modelling choices:

- A digest is the content it was taken of (`Sha`), or a free literal. Texts are sequences of atoms with a byte width, so
  injectivity of identifiers, header hashes and Merkle roots is proved, not assumed. Signature verification, address
  checksums and counting zero bits are arbitrary functions in the `Crypto` record.
- A SQL transaction is work on a copy that is installed on success. Key uniqueness and cascading deletes of
  `internal/ledger/schema.go:15-99` are part of the table functions: an operation SQLite would refuse fails.
- Clocks, randomness, peers' replies, merchants' replies and the wallet's answers are parameters or arbitrary events.
- The header sync of the source is one function; its loop variables are the fields of `HeaderSync`, so that accepting a
  header and accepting a page are methods of their own. `container/heap`, which the source applies to its queue, is Go's
  standard library and is modelled as sift-up and sift-down in `MiningQueues`.
- Where a statement is false of the code, the code is kept and the exact condition is proved: a mined candidate can be
  refused when its random coinbase nonce repeats an identifier (`Candidate.RepeatedDrawIsRefused`,
  `MinedBlocks.MinedCandidateCommits`); the locator of a chain taller than 2^54 + 8 has 65 hashes and is refused
  (`Locators.LocateOnPeer`); a built payment to oneself whose change equals the amount fails its own review
  (`Payments.PreparedExactly`); header sync calls an honest peer faulty whose chain is longer by more than 20 000
  headers and not heavier within the first 156 pages of 128, although it may be heavier within the limit of 20 000
  (`SyncCompleteness.HeavierWithinLimitMissed`, with the exact condition in `SyncCompleteness.SyncFinds`); a session
  can be closed as expired, saying nothing was sent, although the payment went through before a crash
  (`ClientHistories.PaidYetExpired`), and a session waiting for approval or closed as expired was unpaid in every
  history of its row exactly when it stores no transaction (`ClientHistories.UnpaidExactly`).

## Model

| member | source | states |
|---|---|---|
| Encoding.TextInjective | internal/core/encoding.go:26-29 | length-prefixed texts followed by anything can be told apart: equal encodings have equal texts and equal rests |
| Encoding.Encoder.WriteText | internal/core/encoding.go:26-29 | appends exactly the length prefix and the text to what was in the buffer |
| Amounts.MintedIsSubsidySum | internal/core/amount.go:19-39 | the closed form of issued supply equals the sum of all block subsidies up to the height, and never exceeds the cap |
| Amounts.MintedStep | internal/core/amount.go:19-39 | one more block issues exactly its subsidy |
| Consensus.EmissionSchedule | internal/core/amount.go:9-28 | the reward is 6 341 959 base units up to block 12 512 000, 6 341 958 up to block 31 536 000 and nothing after; all of them together are 200 000 000 000 000 base units, reached exactly at block 31 536 000 |
| Transactions.TransactionRoundTrip | internal/core/transaction.go:160-178 | a decoder recovers every field the transaction encoder wrote, whatever follows |
| Transactions.WriteTransaction | internal/core/transaction.go:160-178 | the encoder's writes append exactly the encoding, with or without signatures, to what was in the buffer |
| Transactions.IdBindsTransaction | internal/core/transaction.go:118-122 | two transactions carrying their own identifiers have the same identifier exactly when they are equal |
| Transactions.EncodedSizeParts | internal/core/transaction.go:160-178 | the encoded size is 51 bytes plus the two lists |
| Transactions.CoinbaseSize | internal/core/transaction.go:20-37 | a coinbase is 119 bytes with its output and 51 without, whatever it pays and whatever its nonce |
| Transactions.SumOutputs | internal/core/transaction.go:290-306 | succeeds exactly on positive amounts to valid addresses whose exact sum fits 64 bits, and returns that sum |
| Transactions.CheckInputs | internal/core/transaction.go:201-238 | succeeds exactly when inputs are distinct, known, authorised and add up within 64 bits, and returns the sum |
| Transactions.ValidateRegularTransaction | internal/core/transaction.go:180-247 | returns a fee exactly for valid transactions; the fee is inputs minus outputs without overflow |
| Transactions.ValidateCoinbase | internal/core/transaction.go:253-274 | accepts exactly a coinbase paying the whole reward in at most one output |
| Transactions.FeeDependsOnInputs | internal/core/transaction.go:180-247 | the verdict and fee depend on the ledger only at the outpoints spent |
| Consensus.RegularMeaning | internal/core/transaction.go:180-247 | a regular transaction is valid exactly under the listed conditions, limits by number (65 536 bytes, 256 inputs and outputs, 65-byte keys, 1 to 80 bytes of signature, 52-byte addresses), and its fee is inputs minus outputs |
| Consensus.CoinbaseMeaning | internal/core/transaction.go:253-274 | a coinbase is valid exactly when it spends nothing and pays the whole reward in one output, or nothing when there is no reward |
| Headers.HashBindsHeader | internal/core/block.go:49-60 | two headers carrying their own hashes have the same hash exactly when every field is the same |
| Headers.HashBindsHeight | internal/core/block.go:49-60 | headers of different heights never share a hash |
| Headers.SortSorts | internal/core/block.go:237-248 | the timestamps the median is taken from are sorted and a permutation |
| Headers.MedianIsMember | internal/core/block.go:237-248 | the median is one of the timestamps of the window |
| Headers.AsertCorrectionIsNearest | internal/core/block.go:186-213 | the correction is the integer nearest to deviation over half-life, halves away from zero |
| Headers.AsertIsMonotone | internal/core/block.go:186-202 | a later timestamp never asks for more work, and difficulty stays between 4 and 255 |
| Headers.WindowSuffices | internal/ledger/apply.go:153-181 | median time, the miner's timestamp and the header verdict on the last 120 headers equal those on any longer history |
| Headers.DifficultyInWindow | internal/core/block.go:151-184 | expected difficulty, in legacy epochs and under ASERT, is the same on the last 120 headers as on the full chain |
| Retarget.RetargetRule | internal/core/block.go:151-177 | at the end of a legacy epoch the demanded difficulty is the previous one when the last 60 blocks took 300 to 1200 seconds, one more below 300, two more from 150 down, one less above 1200 and two less from 2400 on, between 4 and 255 |
| Retarget.RetargetDirection | internal/core/block.go:161-176 | slower epochs never demand more from the same difficulty; it rises exactly below 300 seconds and falls exactly above 1200, never by more than 2 |
| Retarget.BetweenEpochs | internal/core/block.go:151-158 | at every other legacy height the first block demands 22 and the others the previous difficulty |
| Retarget.AsertFollowsSchedule | internal/core/block.go:186-202 | from block 125 555 on the demanded difficulty is 35 plus the nearest number of 600-second half-lives the chain is ahead of ten seconds a block since its anchor, with 4 and 255 reached exactly at the stated leads |
| Retarget.MedianIsMiddle | internal/core/block.go:237-248 | the median is one of the last eleven timestamps (or of all when there are fewer), with at most half of them below it and fewer than half above |
| Headers.DifficultyInRange | internal/core/block.go:151-231 | on every header chain difficulty stays within its bounds past genesis |
| Headers.NoTimestampBeforeGenesis | internal/core/chain.go:377-410 | no header of a chain is dated before genesis |
| Headers.LegacyElapsedIsExact | internal/core/block.go:151-177 | the 64-bit subtraction of medians never wraps on a header chain |
| Headers.NextTimestampIsValid | internal/core/block.go:302-312 | the miner's timestamp obeys the timestamp rules exactly when the history is not at the end of 64-bit time |
| Retarget.NextTimestampIsLeast | internal/core/block.go:302-312 | the miner takes the clock reading whenever that reading is admissible, and the least admissible timestamp otherwise |
| Headers.HeaderChainStep | internal/core/chain.go:377-410 | appending a header keeps a chain a chain exactly when the header obeys the rules against all before it |
| Consensus.HeaderAccepted | internal/core/chain.go:377-410 | a header extends a chain exactly under the listed conditions, with version and monotonic timestamps changing at block 125 555 |
| Consensus.FutureLimit | internal/core/chain.go:396-402 | a header may be at most 120 seconds ahead of the clock, at the end of 64-bit time as well |
| Headers.CumulativeWork | internal/core/chain.go:237-243 | the loop returns the work accumulated after genesis |
| Headers.MoreHeadersMoreWork | internal/core/chain.go:237-243 | a proper extension has strictly more work |
| Merkle.ComputeMerkleRoot | internal/core/block.go:250-277 | the level-by-level loop returns the root of the tree, with the last node of an odd level paired with itself |
| Merkle.MerkleRootBindsBody | internal/core/block.go:250-277 | two bodies with computed, distinct identifiers have the same root exactly when they are the same list |
| Merkle.SmallTrees | internal/core/block.go:250-277 | the roots of the smallest bodies: nothing, one leaf, a pair hashed left before right, a pair beside a leaf paired with itself |
| Merkle.RepeatedTailKeepsRoot | internal/core/block.go:262-266 | without distinct identifiers it fails: repeating the last of three transactions keeps the root |
| Merkle.HashBindsBlock | internal/core/block.go:49-60 | a block hash commits to the whole block, body included |
| Totals.TotalApply | internal/core/chain.go:431-450 | applying a valid transaction changes the total of unspent outputs by exactly its fee |
| Replay.ReplayTransaction | internal/core/chain.go:267-289 | one transaction of a replayed block: rejected or applied as the specification says |
| Replay.ReplayBody | internal/core/chain.go:262-321 | the transactions of a block in order, the coinbase last, with exact fees |
| Replay.ValidateBody | internal/core/chain.go:336-358 | accepts exactly bodies within the count and byte limits whose Merkle root matches |
| Replay.ReplayState | internal/core/chain.go:245-330 | accepts exactly the chains that obey every rule and were on time at each check, and returns their view |
| Consensus.BlockAccepted | internal/core/chain.go:256-306 | a block extends a valid chain exactly when its header does, it has 1 to 2 000 transactions of at most 65 536 bytes, at most 1 048 576 bytes with 256 of header, the Merkle root of its body, and a body valid by the plain rules |
| Consensus.BodyShape | internal/core/chain.go:262-270 | a valid body has one coinbase, and it comes first |
| Maturity.RegularAccepted | internal/core/chain.go:452-474 | in a block a regular transaction is accepted exactly when its identifier is new, it is valid, and every coinbase output it spends is at least 100 blocks old |
| Maturity.CoinbaseSpentLate | internal/core/chain.go:278 | on every valid chain whatever spends from the coinbase of block g is in a block at or above g + 100 |
| Replay.ReplayedHeaders | internal/core/chain.go:256-262 | the headers of a replayed chain form a header chain |
| Replay.Conservation | internal/core/chain.go:230-330 | the unspent outputs of every valid chain add up to the emission schedule at its height, at most the cap |
| Refinement.RegularAgrees | internal/ledger/apply.go:89-128 | connecting and replaying one transaction give the same verdict, the same view and the same fees |
| Guards.GuardsNeverDecide | internal/core/chain.go:262-321 | on every chain replay without the checks for overflow of fees and reward and for existing outputs gives the same verdict and view |
| Guards.FeeFits | internal/ledger/apply.go:105 | as long as unspent outputs and collected fees stay within the supply, one more accepted fee stays within it |
| Refinement.BodyAgrees | internal/ledger/apply.go:83-139 | connecting and replaying a block body give the verdict and view of the rules alone: on neither side does a check for overflow, storage range or an existing key ever decide |
| ChainTables.ConnectsAgrees | internal/ledger/apply.go:45-151 | on the tables of a chain a block connects exactly when the full replay accepts it |
| ChainTables.BuildAgreesWithReplay | internal/ledger/import.go:49-53 | a chain connects block by block exactly when it replays (and heights fit), with the same outputs, owners, heights and coinbase flags |
| Maturity.ReachedSpendsLate | internal/ledger/apply.go:239-246 | the same 100 blocks on the chain of a ledger after every run: connection never lets an immature coinbase be spent |
| ChainTables.NewHash | internal/ledger/schema.go:17 | an accepted block never collides with a stored block hash |
| Undo.UndoReturns | internal/ledger/reorg.go:232-260 | playing back an undo record returns exactly the coins of before, outputs spent in their own block included, and no insert meets an existing key |
| Undo.DisconnectUndoesConnect | internal/ledger/reorg.go:193-275 | disconnecting after connecting returns every table to its value before |
| Horizon.BuildIsOk | internal/ledger/apply.go:45-151 | the tables of every chain list exactly its transactions at their places, with sound coins and undo records |
| Horizon.DisconnectIsBuildPrefix | internal/ledger/reorg.go:193-275 | disconnecting the tip of a chain's tables gives the tables of the shorter chain |
| Horizon.ConnectRepresents | internal/ledger/apply.go:45-151 | on pruned tables a block connects exactly when it extends the chain, and pruning commutes with connecting |
| Horizon.DisconnectRepresents | internal/ledger/reorg.go:193-275 | above the horizon disconnecting succeeds on pruned tables and commutes with pruning |
| Horizon.PruneRepresents | internal/ledger/prune.go:69-115 | pruning further leaves the tables of the same chain at the new horizon |
| Horizon.RetainedAboveHorizon | internal/ledger/prune.go:66-68 | every height above the horizon has its body, its transaction bodies and its matching undo record |
| Horizon.RepresentedSupply | internal/ledger/apply.go:130-139 | the coins of every represented ledger add up to the emission schedule |
| AddressIndex.BuiltIndex | internal/ledger/apply.go:290-328 | on the tables of a chain the address index has a row for every output and every input of its transactions and no other, each under the address and with the amount received or spent |
| AddressIndex.ReachedIndex | internal/ledger/prune.go:66-68 | the same after every run of operations, reorganisations and pruning included |
| ChainState.RepresentedConnects | internal/ledger/apply.go:45-151 | a represented ledger accepts exactly the blocks the full replay accepts |
| MempoolRules.NoSharedInputs | internal/ledger/schema.go:73-80 | no two pending transactions spend the same output or share an identifier |
| MempoolRules.ParentsFirst | internal/ledger/mempool.go:227-271 | each input is a mature confirmed output or an output of a pending transaction with a smaller sequence |
| MempoolRules.BudgetsHold | internal/ledger/mempool.go:198-212 | the count, byte and input budgets hold in every sound mempool |
| MempoolRules.RelayFeeIsLeast | internal/ledger/mempool.go:214-220 | the relay minimum is the least multiple of 1000 that pays 1000 for every 1024 bytes |
| MempoolRules.LookupMeaning | internal/ledger/mempool.go:227-271 | a lookup succeeds exactly on what a pending transaction may spend, and never meets a corrupt row |
| MempoolRules.AdmitKeepsPool | internal/ledger/mempool.go:94-181 | admission never meets a storage fault, and adds one row on top of an unchanged, still sound mempool |
| Refills.AdmitsAdmissible | internal/ledger/mempool.go:94-181 | admission takes exactly the admissible transactions, budgets and relay minimum by number, and appends the row with their fee |
| MempoolRules.PoolConserves | internal/ledger/mempool.go:292-339 | unspent confirmed outputs, unspent pending outputs and pending fees add up to all confirmed outputs |
| MempoolRules.RebuildIsSound | internal/ledger/mempool.go:424-465 | a rebuild never fails and leaves a sound mempool, whatever the old one held |
| MempoolRules.RebuildLosesNothing | internal/ledger/mempool.go:424-485 | a rebuild at an unchanged tip keeps every pending transaction in order |
| Refills.RepopulateExactly | internal/ledger/mempool.go:467-486 | repopulating adds exactly the transactions that are admissible after those before them, in order |
| Survival.RebuildKeepsSurvivors | internal/ledger/mempool.go:424-485 | on any new confirmed state that leaves outpoints their values, a rebuild keeps exactly the rows not confirmed whose inputs are confirmed and mature or come from a row that stays |
| Survival.PendingAfterBlock | internal/ledger/apply.go:20-39 | after a block is connected the mempool is exactly the survivors, in their old order |
| Survival.ConfirmedByBlock | internal/ledger/mempool.go:104-112 | a pending transaction counts as confirmed after a block exactly when the block contains it |
| MempoolRules.SpendableAgreesWithLookup | internal/ledger/mempool.go:292-339 | the wallet query offers exactly the outputs of the address that admission would accept next, at the same value |
| Priority.HigherMeaning | internal/ledger/mining.go:215-228 | comparing 64-bit words compares exact fee rates, then fees, then age |
| Priority.HigherIsStrictTotalOrder | internal/ledger/mining.go:215-228 | the comparison is irreflexive, asymmetric, total on distinct sequences and transitive |
| Priority.GreedyIsTopological | internal/ledger/mining.go:258-272 | an order that always takes the best ready item never repeats one and puts parents before children |
| Priority.CompleteIsPermutation | internal/ledger/mining.go:273-276 | an order as long as the list contains every item |
| Priority.GreedyIsUnique | internal/ledger/mining.go:215-277 | without repeated sequence numbers the greedy order is determined |
| Priority.CompleteMeansAcyclic | internal/ledger/mining.go:273-276 | a complete greedy order rules out every dependency cycle |
| Priority.StuckMeansCycle | internal/ledger/mining.go:273-276 | when something is left and nothing is ready, there is a dependency cycle |
| MiningQueues.MiningQueue.Push | internal/ledger/mining.go:204-206 | adds one entry and restores the heap |
| MiningQueues.MiningQueue.Pop | internal/ledger/mining.go:208-213 | removes one entry that no other entry beats and restores the heap |
| MiningQueues.RootIsBest | internal/ledger/mining.go:189-213 | the root of the heap is beaten by no entry |
| MiningOrder.IndexItems | internal/ledger/mining.go:231-240 | accepts exactly lists with identifiers, sizes and no duplicate, and indexes them |
| MiningOrder.CountEdges | internal/ledger/mining.go:242-253 | parent counts and child lists count every input that spends a pending output |
| MiningOrder.Release | internal/ledger/mining.go:265-270 | releasing an item's edges queues exactly the children left without untaken parents |
| MiningOrder.Prioritize | internal/ledger/mining.go:230-277 | orders the list greedily and completely exactly when metadata is valid and the dependency graph has no cycle |
| MiningRules.ReachablePoolIsAcyclic | internal/ledger/mining.go:273-275 | a reachable mempool has valid metadata, distinct sequences and no dependency cycle |
| Mining.MiningView.Inputs | internal/ledger/mining.go:295-316 | finds exactly inputs that are unselected and either created by the selection or confirmed and mature |
| Mining.MiningView.Apply | internal/ledger/mining.go:318-335 | succeeds exactly when no input was taken and no output exists; the maps are updated up to the first input or output that fails |
| Mining.Select | internal/ledger/mining.go:61-86 | the loop takes and passes over exactly what the specification of the selection says |
| MiningRules.ConsiderReplays | internal/ledger/mining.go:61-86 | whatever the loop takes replays on top of the tip, and its fee total never overflows |
| MiningRules.CandidateBodyFits | internal/ledger/mining.go:55-60 | a candidate respects every block limit; the size reserve is exact, or 68 bytes too large when nothing is paid |
| MiningRules.CandidateConnects | internal/ledger/mining.go:87-106 | given nonce and hash a candidate connects exactly with enough work, a new coinbase identifier and time left in 64 bits |
| MiningChoice.SelectedParents | internal/ledger/mining.go:65-79 | every input of a selected transaction is confirmed or comes from one selected before, so a passed-over parent never has a selected child |
| MiningChoice.CandidateIsMaximal | internal/ledger/mining.go:61-86 | every pending transaction is selected, waits for a parent that is not, or does not fit in the room left |
| Candidate.BuildCandidate | internal/ledger/mining.go:20-107 | a candidate exists for every valid address until heights run out, built from the mempool in priority order |
| Candidate.CandidateHoldsAllItCan | internal/ledger/mining.go:61-86 | the maximality of the selection for every reachable ledger |
| Candidate.RepeatedDrawIsRefused | internal/core/transaction.go:24-31 | a repeated coinbase draw gives a candidate that no nonce makes acceptable |
| MinedBlocks.MinedCandidateCommits | internal/ledger/mining.go:113-140 | at its own tip a mined candidate is committed exactly under the listed conditions, 120 seconds of clock tolerance included |
| MinedBlocks.CandidateTime | internal/ledger/mining.go:87-106 | a candidate is dated with the clock reading whenever the rules allow it on the full chain, and with the least timestamp they allow otherwise |
| Collectors.Collector.Add | internal/ledger/reorg.go:37-61 | the collector always holds the longest oldest-first prefix that fits both limits, with exact totals |
| Collectors.Collector.Transactions | internal/ledger/reorg.go:63-69 | returns that prefix oldest first |
| Collectors.KeptIsLongest | internal/ledger/reorg.go:35-60 | what is kept fits, and no longer prefix does |
| Collectors.TrimEarly | internal/ledger/reorg.go:35-60 | trimming block by block loses nothing that trimming once at the end would keep |
| Reorgs.OrphansInOrder | internal/ledger/reorg.go:160-167 | the regular transactions above any height of a chain, oldest first, come in an order in which each could be applied after those before it |
| Reorgs.KeptHaveParents | internal/ledger/reorg.go:31-69 | an orphaned parent of a transaction that goes back to the mempool goes back too, and before it |
| Authenticity.TailsApplied | internal/ledger/reorg.go:160-167 | what a reorganisation takes back is every transaction above the ancestor but the coinbases, oldest first, apart from each other, spent for good on the old chain and each once valid |
| Authenticity.FeeSame | internal/ledger/mempool.go:94-181 | an outpoint names one output on every chain, so two ledgers that know its inputs give a transaction the same verdict and the same fee |
| Databases.Database.HeaderWindow | internal/ledger/apply.go:153-181 | reads the last 120 headers |
| Databases.Database.InsertOutputs | internal/ledger/apply.go:273-288 | inserts every output or fails exactly on an unstorable amount or an existing key |
| Databases.Database.InsertTransaction | internal/ledger/apply.go:290-328 | inserts the transaction and its address rows or fails exactly on an existing key |
| Databases.Database.ConnectTransaction | internal/ledger/apply.go:86-128 | one pass of the transaction loop, equal to the table function in verdict and effect |
| Databases.Database.ConnectBlockAtTime | internal/ledger/apply.go:45-151 | connects in place exactly the blocks that the rules, the keys and the clock allow |
| Databases.Database.TransactionsAt | internal/ledger/reorg.go:325-357 | returns the bodies in index order exactly when the rows of the height have one for each position and all their bodies |
| Databases.Database.PlayBack | internal/ledger/reorg.go:232-260 | plays an undo record back row by row |
| Databases.Database.DisconnectTip | internal/ledger/reorg.go:193-275 | refuses exactly genesis and pruned tips, otherwise leaves the shorter chain and returns the block and its regular transactions |
| Databases.Database.ReadUsage | internal/ledger/mempool.go:183-196 | the recomputed usage equals the running totals of the rows |
| Databases.Database.LookupInputs | internal/ledger/mempool.go:124-133 | finds all inputs or reports the first failure as rejection or fault |
| Databases.Database.AddMempoolTransaction | internal/ledger/mempool.go:94-181 | admits as specified, writes nothing when it refuses, and keeps the running usage equal to the recomputed one |
| Databases.Database.RepopulateMempool | internal/ledger/mempool.go:467-486 | offers every transaction in order and skips refusals |
| Databases.Database.RebuildMempool | internal/ledger/mempool.go:424-465 | rebuilds from orphans first and the old mempool after them |
| Ledgers.Ledger.ConnectBlock | internal/ledger/apply.go:20-39 | commits or leaves the store unchanged, exactly as the state machine says |
| Ledgers.Ledger.CommitMinedBlock | internal/ledger/mining.go:113-140 | refuses a stale tip, otherwise connects |
| Ledgers.Ledger.ReplaceFrom | internal/ledger/reorg.go:127-191 | replaces the chain above the ancestor atomically, exactly when the new chain is valid and has strictly more work |
| Ledgers.SwitchTo | internal/ledger/reorg.go:160-184 | the disconnecting and connecting loops leave the chain to the ancestor followed by the blocks, and the orphans that fit |
| Ledgers.Ledger.DisconnectTip | internal/ledger/reorg.go:71-91 | removes the tip above the horizon and returns its transactions to the mempool |
| Ledgers.Ledger.AddTransaction | internal/ledger/mempool.go:60-82 | admits, or leaves the store unchanged and says why |
| Ledgers.Ledger.Prune | internal/ledger/prune.go:69-115 | moves the horizon to the tip minus the retention, or leaves it when it is already there or beyond, and returns it |
| Ledgers.Ledger.ImportState | internal/ledger/import.go:14-74 | imports a replayed state block by block into a fresh ledger |
| Ledgers.Ledger.BuildMiningCandidate | internal/ledger/mining.go:20-107 | the candidate of the committed store, with nothing written |
| Worlds.ExecKeepsWorld | internal/ledger/reorg.go:127-191 | every operation keeps the ledger sound, and every failure changes nothing |
| Worlds.ReplaceKeepsWorld | internal/ledger/reorg.go:127-191 | a committed replacement is the chain to the ancestor followed by the blocks, with strictly more work, at or above the horizon |
| Commitment.ConnectCommits | internal/ledger/apply.go:20-39 | connecting commits exactly when the longer chain replays, heights fit and the block is at most 120 seconds ahead, and is refused as invalid otherwise |
| Commitment.MinedCommits | internal/ledger/mining.go:113-140 | a mined block is refused as stale exactly when the tip is no longer the expected one, by height or hash, and is connected or refused like any block otherwise |
| Commitment.ReplaceCommits | internal/ledger/reorg.go:127-191 | the result of a replacement is determined, in the order of the checks: no blocks, unknown ancestor, ancestor below the horizon, invalid chain or clock, no more work, heights exhausted, committed |
| Commitment.DisconnectCommits | internal/ledger/reorg.go:71-91 | disconnecting commits exactly above genesis and above the horizon |
| Commitment.ImportCommits | internal/ledger/import.go:14-53 | an import commits exactly into a fresh ledger, with a state that replays and fits, no block more than 120 seconds ahead at either check and at most 5 000 pending transactions |
| Commitment.AddCommits | internal/ledger/mempool.go:60-82 | adding a transaction commits exactly when it is admissible, and then appends one row with its fee, size and time; it is refused as known exactly when it is confirmed or pending |
| Refills.ReplacementRefills | internal/ledger/reorg.go:160-184 | after a replacement the mempool holds, in order, exactly those of the longest oldest-first prefix of the disconnected transactions within 5 000 and 67 108 864 bytes, followed by the old rows, that stay: not confirmed on the new chain, inputs still there, relay minimum and budgets met |
| Refills.DisconnectionRefills | internal/ledger/reorg.go:71-91 | after a disconnection the same for the transactions of the tip followed by the old rows |
| Refills.RefilledMember | internal/ledger/mempool.go:467-486 | a returning transaction is in the new mempool exactly when it stays given those that returned before it |
| Refills.ImportKeepsPending | internal/ledger/import.go:14-74 | an import leaves in the mempool exactly the pending transactions admissible on the imported chain, in order |
| Arrivals.TimesStay | internal/ledger/mempool.go:424-465 | through every operation a pending transaction keeps the time it was first seen, and one that was not pending before gets the time of the operation |
| Arrivals.ImportTimes | internal/ledger/import.go:58-69 | an import gives every pending transaction its own time |
| Runs.RunKeepsWorld | internal/ledger/apply.go:20-39 | soundness over every run of operations |
| Runs.SupplyIsExact | internal/ledger/apply.go:130-139 | confirmed outputs equal the emission schedule; so do unspent outputs, pending outputs and pending fees together |
| Runs.ReachableSupply | internal/core/amount.go:30-39 | the supply law after any run from genesis, reorganisations and pruning included |
| Runs.CommitAddsWork | internal/ledger/reorg.go:178-184 | connecting, committing a mined block and replacing strictly increase tip work whenever they commit |
| Runs.WorkGrows | internal/ledger/reorg.go:178-184 | along any run without manual disconnection work grows at least by the number of commits |
| Runs.HistoryIsFinal | internal/ledger/reorg.go:152-158 | the horizon stays below the tip and never moves back, and blocks at or below it never change |
| Runs.NothingMissing | internal/ledger/reorg.go:201-222 | above the horizon of a reachable ledger nothing a reorganisation needs is missing |
| Runs.PruneKeepsRecent | internal/ledger/prune.go:69-115 | after pruning every block above both the old horizon and the tip minus the retention still has its body and undo record, every block from 1 to the tip minus the retention has neither, and headers, coins and indexes are untouched |
| Runs.PruningIsInvisible | internal/ledger/prune.go:66-115 | a ledger that prunes as it goes ends every run with the chain and mempool of one that never prunes, as long as nothing is refused for the horizon |
| Runs.ReachableReplays | internal/ledger/import.go:49-53 | every chain reached by any run replays, with the coins and origins of the tables, at a clock at or after every clock the run read |
| Runs.ImportIsComplete | internal/ledger/import.go:14-74 | given a clock that does not go back, a fresh ledger imports a legacy state exactly when it replays, within the limits |
| Locators.BlockLocator | internal/ledger/query.go:256-286 | at most 64 descending hashes from tip to genesis, or 65 with genesis appended beyond height 2^54 + 8 |
| Locators.LocatorDescends | internal/ledger/query.go:256-286 | locator heights fall strictly |
| Locators.FindLocator | internal/ledger/query.go:288-303 | the first known hash, or none, and nothing for an empty or oversized list |
| Locators.SameHashSameHistory | internal/ledger/query.go:288-303 | a hash shared by two chains is at the same height above the same history |
| Locators.LocateOnPeer | internal/ledger/query.go:256-303 | against a peer sharing the chain to height c a common height f is found with c - f at most tip - c, exactly when the chain is not too tall |
| HeaderSyncs.HeaderSync.Accept | internal/node/http_protocol.go:552-581 | a header accepted on the moving window obeys the full rules, and is shared or one more candidate |
| HeaderSyncs.SyncHeaders | internal/node/http_protocol.go:489-614 | the result is determined by the pages read: the loop stops at the first page that is not good (peer fault), brings more work (replacement from the highest shared block, or refused below the horizon) or is short (nothing better); excess work without a suffix and truncation never happen |
| SyncCompleteness.SyncFinds | internal/node/http_protocol.go:489-614 | against a peer that pages a valid chain a replacement from the highest shared block is asked for exactly when the chain is heavier where a page ends within 20 000 headers and the block is not below the horizon; nothing better, refusal and fault each have their exact condition too |
| SyncCompleteness.SyncTakes | internal/node/http_protocol.go:582-601 | a replacement takes everything shown above the highest shared block, up to the end of the first page that brings more work |
| SyncCompleteness.HeavierWithinLimitMissed | internal/node/http_protocol.go:527-529 | a family of chains heavier within 20 000 headers, but not within 19 968, whose honest peer is called faulty |
| HeaderSyncs.SyncedReplacement | internal/node/http_protocol.go:582-606 | on an unchanged ledger the replacement that follows commits or its blocks are invalid; it is never refused for work or horizon |
| Payments.GatherCoins | internal/core/transaction.go:77-96 | takes the fewest coins in order that cover amount and fee, at most 256 |
| Payments.BuildTransaction | internal/core/transaction.go:39-116 | succeeds exactly when the first 256 coins cover amount and fee, with inputs equal to amount plus fee plus change |
| Payments.PaymentIsValid | internal/core/transaction.go:39-116 | a built payment validates and pays exactly its fee |
| Payments.PaymentSize | internal/core/transaction.go:39-116 | a built payment is at most 58 811 bytes |
| Payments.BuildRecommendedPayment | internal/node/payment.go:206-222 | the fee is 1000 or the relay minimum of a payment built with a lower fee, at most 58 000, and the result covers its own relay minimum; it never fails to converge, a refusal means that a fee on the way could not be paid, and coins covering the amount and 58 000 always give a payment |
| Payments.CeilingCovers | internal/node/payment.go:224-228 | the reviewed ceiling covers every rebuild whose signatures are at most eight bytes longer |
| Payments.CeilingIsTight | internal/node/payment.go:224-228 | the ceiling is the estimate or less than one relay step above what a build longer by eight bytes an input and 32 more costs |
| Payments.ValidatePreparedPayment | internal/node/payment.go:181-204 | accepts exactly one invoice output, otherwise change, and inputs of the wallet only |
| Payments.PreparedMeans | internal/node/payment.go:181-204 | what passes the review carries its own identifier, spends only the wallet, pays the invoice in exactly one output and gives every other output back to the wallet |
| Payments.PreparedExactly | internal/node/payment.go:181-204 | a built payment passes that review except when paying oneself an amount equal to the change |
| PaymentCommits.CommitPreparedPayment | internal/node/payment.go:114-150 | commits exactly the payments that pass the review and that the ledger admits or knows already; one that newly enters the mempool pays exactly the reviewed fee |
| PaymentCommits.AdmittedFee | internal/node/payment.go:135-143 | what admission charges is what the wallet's own view says |
| Workers.MineBlock | internal/core/block.go:74-149 | without cancellation mining fails exactly when no nonce gives enough work |
| Workers.SharesPartition | internal/core/block.go:90-119 | every nonce belongs to exactly one worker |
| ClientRuns.ApplyKeeps | entpay/client_manager.go:151-528 | every step of every operation, every crash and every end of an operation between two steps keeps the session invariant |
| ClientRuns.OnePayment | entpay/client_manager.go:408-429 | all calls that commit a payment carry the one journaled transaction, in every interleaving |
| ClientRuns.StagesMeanPayment | entpay/client_manager.go:372-434 | stages from broadcast to complete imply a sent payment, complete implies a verified delivery, and without a journaled transaction nothing was sent |
| ClientRuns.RetryPermitted | entpay/client_manager.go:450-482 | a retryable failure always remembers a stage it may return to |
| ClientRuns.RetryMovesOn | entpay/client_manager.go:450-482 | retrying any reachable retryable failure moves the session on |
| ClientRuns.RetryResumes | entpay/client_manager.go:450-482 | a retry takes the session back to the stage in which the failure was recorded, and to fulfilling after an invalid delivery |
| ClientRuns.RevisionNamesRow | entpay/client_store.go:765-811 | along every run the revision never falls, the same revision means the same row, and a deleted row does not come back |
| ClientRuns.JournalIsFinal | entpay/client_store.go:561-581 | once a payment is journaled the row holds the same transaction for as long as it exists |
| ClientHistories.PaidYetExpired | entpay/client_manager.go:393-395 | a run from a received session to one closed as expired although its payment went through, by a crash between payment and record |
| ClientHistories.UnpaidExactly | entpay/client_manager.go:393-395 | a session waiting for approval or closed as expired was unpaid in every history of its row exactly when it stores no transaction |
| ClientGuards.OneAtATime | entpay/client_manager.go:616-630 | after every run at most one operation holds the session, and the slot is taken while one does |
| ClientGuards.PreparationNeedsApproval | entpay/client_manager.go:372-404 | a step starts preparing a payment exactly when it is an approval at the current revision of a session awaiting one, not expired, with the wallet ready, the merchant unchanged and the slot free |
| ClientGuards.TrustUnlocksApproval | entpay/client_manager.go:390-392 | a changed merchant identity stops approval until the user trusts it again, and then no longer |
| ClientGuards.CallsWhilePreparing | entpay/client_manager.go:408-429 | a step that calls for a payment is one of an operation that last saw the session being prepared, and the call carries the journaled transaction |
| ClientGuards.DeletesOnlyFinished | entpay/client_store.go:148-160 | deleting removes exactly sessions awaiting approval, finished, or failed without a transaction |
| ClientGuards.GoodSessionCompletes | entpay/client_manager.go:151-434 | with a wallet that pays and a merchant that delivers what verifies, a received session is paid once and completes with that delivery |
| ClientOutcomes.StopsExactly | entpay/client_manager.go:151-370 | an event stops a session exactly as foretold: network and artifact failures can be retried, a reply that cannot be the merchant's ends it, only a verified delivery that was kept completes it, and rejection and expiry only close what is unpaid on record or awaiting approval |
| ClientOutcomes.FulfilsExactly | entpay/client_manager.go:191-221 | a confirming session goes over to being fulfilled exactly when a poll that knows its row has heard that the merchant is processing |
| ClientOutcomes.CountFollowsMerchant | entpay/client_manager.go:200-204 | the stored count of confirmations is what the merchant last told a poll that knew the row, and no other event changes it |
| ClientOutcomes.RecoveryFinishes | entpay/client_manager.go:484-528 | after a crash at any moment of any history recovery alone brings a paid session to the delivery the merchant owes, without another payment; only a session that holds a bad delivery stops first, to be retried |
| ClientOutcomes.RecoveryReviews | entpay/client_manager.go:484-528 | after a crash a session that was received, inspected or prepared goes back to its review, and every other one without a payment stays as it is |
| ClientManagers.ClientManager.Approve | entpay/client_manager.go:372-434 | checks, journal, payment and record as the code orders them are one run of the session steps, wherever the context ends |
| ClientManagers.ClientManager.Continue | entpay/client_manager.go:151-221 | submission and the polling loop, for any replies and however long, are one run of the session steps |
| ClientManagers.ClientManager.OneTransaction | entpay/client_manager.go:408-429 | in every state the manager reaches all calls that commit a payment carried the journaled transaction, and the row holds it |
| ClientManagers.ClientManager.Inspect | entpay/client_manager.go:340-370 | redeeming once and then reviewing is a run of the session steps |
| ClientManagers.ClientManager.VerifyDelivery | entpay/client_manager.go:273-290 | verification, the artifact and completion are a run of the session steps |
| ClientManagers.ClientManager.Retry | entpay/client_manager.go:450-482 | a retry and whatever it goes on with are one run of the session steps |
| ClientManagers.ClientManager.Recover | entpay/client_manager.go:484-528 | recovery of a session from any stage is one run of the session steps |

## Left out

- State identity fields (version, name, symbol) and the pending half of `State.replay`, `State.Mine` and `State.AddPending`.
- Literal digests in upper-case hexadecimal and case-insensitive addresses: identifiers are canonical and address equality is equality.
- SQLite itself, JSON encoding of stored rows, corrupt stored rows other than zero amounts, and AUTOINCREMENT running out.
- The order in which BuildTransaction sorts coins: any order without repetition is allowed, and the results do not depend on it.
- The collector overwriting the tail of the slice it was given: blocks are values, so that aliasing is not captured.
- Copying a database for a transaction stands for BEGIN and ROLLBACK; nothing is said about other readers meanwhile.
- Cancellation of mining workers, and the channel that carries the winner.
- Databases.Database.DisconnectTip: the fallback that reassembles a block from header and rows when its body is missing is not modelled, because above the horizon the body is always there.
- Payments.BuildRecommendedPayment: elliptic-curve signing is a function with sizes and authorisation as its only properties.
- FormatAmount and ParseAmount, transaction history queries, peers, health events and balances: reporting that would add only easy members.
- HTTP, WebSocket, staging of block bodies, discovery, rate limits, wallet vaults, updates and user interfaces.
- The gateway side of EntPay, redeeming and downloading, encrypted capsules, retention of request details and merchant identities beyond the trust flag.
- One EntPay session at a time is followed: identifiers are random and sessions do not share rows, apart from the trust table.
