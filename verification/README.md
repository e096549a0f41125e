# Verified model of the bridge relayer, the event indexer and two tools

This project models, in Dafny, the parts of the Taiko repository whose results rest on branching, state or
arithmetic that a reader cannot settle at a glance, and proves what they promise:

- **Bridge messages** (`Integers`, `ByteStrings`, `ContractAbi`, `BridgeMessage`, `BridgeRoundTrip`): the
  relayer's hand-written reading of vault calls, against an encoder written from the Contract ABI Specification
  (section "Formal Specification of the Encoding"). ERC-20 calls are read back exactly; NFT calls are read back
  exactly unless their bytes also read as an ERC-20 token, and that case is characterised.
- **Fork definitions** (`ForkPatches`, `ForkDiff`): the walk that hands a diff's files to a tree of definitions,
  iterating maps in no particular order.
- **The fixed-point exponential** (`FixedPointExp`, `ExpLaws`): range reduction, the two polynomial chains and their
  bounds, and what the result has in common with exp on all inputs: it never falls, and lies between the line 1 + x
  and the hyperbola 1 / (1 - x).
- **Token balances** (`Transactions`, `Erc20Balances`, `Erc20Indexer`, `NftBalances`, `NftIndexer`,
  `NftOwnership`): the balance tables, their retried transactions, logs handled by concurrent workers, and what
  the tables say against a ledger and against ERC-721 ownership.
- **Epoch revenue** (`BlockRevenue`, `Epochs`, `EpochRuns`, `EpochTotals`, `EpochTracker`): the state machine
  that cuts the chain into epochs while fetches and saves fail, and the revenue estimate.
- **The relayer's processor** (`ProfitGate`, `MessageProcessing`, `Workers`): the profit gate in 64-bit
  arithmetic, the gates a message passes, and workers that share the set of hashes in process.
- **Block ranges** (`BlockRanges`, `RelayerRanges`, `EventFilter`): which block ranges the two indexers ask for
  over many passes.

Where the source changes objects step by step the model is a class or a method with a loop, proved against a
function; what the source promises is then proved of that function. A call to the outside (a node, a database, the
queue) is a parameter that holds its answer. `dafny verify dfyconfig.toml` checks everything.

What the proofs found to be otherwise than one might expect:

- An NFT call for a token with an empty symbol can be read as an ERC-20 transfer
  (`BridgeRoundTrip.EmptySymbolReadsAsErc20`).
- A debit that meets no row is dropped, so that a mint handled after the transfer that spends it leaves tokens
  behind (`Erc20Balances.LateMintKeepsSpentTokens`); `FollowsLedgerIff` says exactly when that does not happen.
- Token ids are cut to 64 bits: two ids that agree there share a row (`NftOwnership.CollidingIdsShareARow`).
- The revenue estimate takes a blob or set-code transaction's whole fee cap for its tip
  (`BlockRevenue.BlobIsOverestimated`); `NotOverestimatedIff` says exactly when the estimate is too high.
- A cost that does not fit 64 bits wraps, and a message that pays one wei can pass as profitable
  (`ProfitGate.WrappedPricePasses`).
- The comment at `packages/relayer/processor/processor.go:501-502` says that a failed message is requeued; the flag
  it passes on is false for every error (`MessageProcessing.RequeuedIffPaused`).
- With a target block set, the relayer's crawler asks for the block after it
  (`RelayerRanges.TargetAsksForTheBlockAfter`).
- A batch cut at a fork leaves the rest of the batch out for good (`EventFilter.CutSkipsBlocks`), and its blocks,
  all before the fork, are filtered for the events after it (`EventFilter.CutRangeIsFilteredForTheNextFork`). A fork
  at a batch's end is not noticed at all before the next pass (`EventFilter.ForkAtBatchEndGoesUnnoticed`).
  `EventFilter.EachBlockForItsForkIff` says exactly when a pass gets every block and its fork right.
- A message is turned away for good while another of the same source transaction is in process
  (`Workers.FinishedAnswersOnce`).
- A block whose fetch fails is skipped for good once a later block is handled
  (`EpochTracker.Indexer.ProcessNewL2Blocks`, `EpochTracker.TrackedCount`).

## Model

| member | source | states |
|---|---|---|
| BridgeMessage.ChunksPartition | packages/relayer/types.go:114-125 | The chunks are the whole data in order; all but the last are full and none is empty |
| BridgeMessage.SplitByteArray | packages/relayer/types.go:116-125 | The loop returns exactly those chunks |
| BridgeMessage.AmountChunkExists | packages/relayer/types.go:130-163 | On any bytes, if the five fields decode from the computed start then the sixth chunk exists, so reading the amount stays in bounds; the case of start 0 is excluded because the offset word doubles as the uint8 decimals |
| BridgeMessage.Erc20Fields | packages/relayer/types.go:158-189 | A successful five-field decode has the five fields in their types and at least five words of data |
| BridgeMessage.Erc20ByOffset | packages/relayer/types.go:127-203 | On any bytes, what the ERC-20 decoder accepts has its token 64 bytes past the third word, with valid strings, and the sixth word for its amount |
| BridgeMessage.DecodeDataAsNFT | packages/relayer/types.go:205-300 | The NFT decoder's result on any bytes, panics included, step by step equal to its specification, which the round trips below are about |
| BridgeMessage.SumAmounts | packages/relayer/types.go:282-294 | The loop adds up the amount words and stops where one runs past the data |
| BridgeMessage.DecodeMessageData | packages/relayer/types.go:319-348 | Data that does not start 7f07c947 is plain ether of the message's value; an invocation is what the ERC-20 decoder makes of it, else what the NFT decoder does, else plain ether again |
| BridgeMessage.PlainEtherIff | packages/relayer/types.go:319-348 | The result is ether without a token, of the message's own value, exactly when the data is no invocation or neither decoder accepts its arguments |
| BridgeMessage.NftByOffset | packages/relayer/types.go:205-300 | On any bytes the third word decides what the NFT decoder reports: 128 one token, 160 several, any other multiple of 32 no transfer (ether, amount 0); the token is decoded 64 bytes past it; without that word it panics |
| BridgeMessage.NftFailsIff | packages/relayer/types.go:205-262 | The NFT decoder gives up exactly on an offset that is not a word's, a token outside the data, or one that does not decode |
| ContractAbi.EncSeqAt | packages/relayer/types.go:302-314 | In the specification's encoding, head `i` is the word itself or the offset at which that element's encoding stands |
| ContractAbi.DecodeEncoded | packages/relayer/types.go:302-314 | The strict decoder undoes the specification's encoding of the named types, whatever bytes follow |
| ContractAbi.DecodeFromAt | packages/relayer/types.go:302-314 | Decoding succeeds only if every field can be read in bounds and in range, each from its own head word |
| BridgeRoundTrip.Erc20RoundTrip | packages/relayer/types.go:127-203 | Every encoded ERC-20 call, for any token, parties and amount, is read back as that token and amount |
| BridgeRoundTrip.MisreadNftToken | packages/relayer/types.go:158-189 | Read as ERC-20, an NFT token's decimals are its symbol's offset, its symbol is its name, and its name is what stands where the symbol's length points; decoding fails exactly when that runs past the data |
| BridgeRoundTrip.MisreadLengthIs | packages/relayer/types.go:158-189 | For a symbol of at most 24 bytes, what that misread name length is |
| BridgeRoundTrip.NftAsErc20 | packages/relayer/types.go:319-337 | The ERC-20 decoder accepts an NFT call exactly when its token data also reads as an ERC-20 token |
| BridgeRoundTrip.Erc721RoundTrip | packages/relayer/types.go:205-300 | An ERC-721 call is read as its token with amount 1 exactly when its data does not also read as ERC-20 |
| BridgeRoundTrip.Erc1155RoundTrip | packages/relayer/types.go:205-300 | An ERC-1155 call is read as its token with the sum of all its amounts exactly when its data does not also read as ERC-20 |
| BridgeRoundTrip.NotReadAsErc20 | packages/relayer/types.go:127-203 | With a non-zero chain id, a symbol of 3 to 24 bytes and a call below 2^24 bytes, an NFT call never reads as ERC-20 |
| BridgeRoundTrip.Erc721Classified | packages/relayer/types.go:319-348 | Under those conditions an ERC-721 call is classified and read correctly |
| BridgeRoundTrip.Erc1155Classified | packages/relayer/types.go:319-348 | Under those conditions an ERC-1155 call is classified and read correctly |
| BridgeRoundTrip.TakenForErc20 | packages/relayer/types.go:331-337 | An NFT call whose data also reads as ERC-20 is reported as an ERC-20 transfer |
| BridgeRoundTrip.EmptySymbolReadsAsErc20 | packages/relayer/types.go:331-337 | A concrete NFT call, with an empty symbol, that is reported as ERC-20 |
| ForkPatches.CountOperations | packages/fork-diff/main.go:240-247 | The loop's count is the number of positions at which a line ends in a chunk of the kind asked for |
| ForkPatches.LinesAreLineEnds | packages/fork-diff/main.go:240-247 | So is the figure that every total on the page is a sum of |
| ForkPatches.AllTakeIff | packages/fork-diff/main.go:310-322 | Patterns applied one after the other all succeed exactly when none is malformed and each name is matched at most once and is available |
| ForkDiff.TreeIsPartition | packages/fork-diff/main.go:301-324 | When a tree's patterns succeed, the files of all definitions are the matched names, each once, and their lines add up |
| ForkDiff.ListedIsThePatch | packages/fork-diff/main.go:326-337 | Whatever file a definition lists, its patch, its binary flag and its two counts of line ends are that file's own |
| ForkDiff.ForkDefinition.HydratePatch | packages/fork-diff/main.go:326-337 | One file more, with its line counts added to the definition's totals |
| ForkDiff.ForkDefinition.TakeIfMatched | packages/fork-diff/main.go:312-320 | Fails on a malformed pattern or a name already taken; otherwise takes exactly the matched name |
| ForkDiff.ForkDefinition.HydratePattern | packages/fork-diff/main.go:311-321 | Whatever order the map yields, one pattern succeeds exactly when it takes only available names, and takes all it matches |
| ForkDiff.ForkDefinition.HydrateGlobs | packages/fork-diff/main.go:310-323 | The definition's own patterns in turn: success, names taken, files and lines |
| ForkDiff.ForkDefinition.HydrateSubs | packages/fork-diff/main.go:302-309 | The children in turn: success, names taken, every child hydrated, their lines added up |
| ForkDiff.ForkDefinition.Hydrate | packages/fork-diff/main.go:301-324 | Success, the names left over, the file set of every definition and all totals, as functions of tree and patches alone, so that no map order can change them |
| ForkDiff.ForkDefinition.HydratedIsBalanced | packages/fork-diff/main.go:301-337 | In a hydrated tree every total is that of the definition's own files plus its children's totals |
| ForkDiff.ForkDefinition.HydratedPaths | packages/fork-diff/main.go:301-337 | The files listed anywhere in a hydrated tree are exactly those its patterns match |
| ForkDiff.OtherChanges | packages/fork-diff/main.go:129-141 | The extra definition lists the leftover files, each once, with their lines |
| ForkDiff.HydrateRoot | packages/fork-diff/main.go:124-128 | The walk succeeds exactly when no pattern in the whole tree is malformed and every file is matched by at most one pattern occurrence |
| ForkDiff.AddOtherChanges | packages/fork-diff/main.go:129-145 | There is an extra definition exactly when files are left; it lists just those, counts its own files, and with it the root's totals are its own files' plus those of all its children and the sums over all patches |
| ForkDiff.HydratePage | packages/fork-diff/main.go:124-145 | The walk succeeds exactly when no file is matched twice and no pattern is malformed; then every file is in exactly one definition, the extra one has just the rest, every definition's totals are its own files' plus its children's, and the root's are the sums over all patches |
| ForkDiff.Define | packages/fork-diff/main.go:289-299 | For every tree of patterns there is a definition of that shape, valid and not yet hydrated, so that the results above are about every tree |
| FixedPointExp.RemainderIsHalfLn2 | packages/protocol/script/eip1559_util.py:15-18 | Range reduction leaves a remainder within half of the scaled ln 2, for every input |
| FixedPointExp.ExponentBounds | packages/protocol/script/eip1559_util.py:9-17 | Between the cut-offs the exponent is in [-61, 195] |
| FixedPointExp.NumeratorBounds | packages/protocol/script/eip1559_util.py:20-24 | Floors and all, the numerator is strictly positive on reduced inputs, within stated bounds |
| FixedPointExp.DenominatorBounds | packages/protocol/script/eip1559_util.py:26-31 | Floors and all, the denominator is strictly positive on reduced inputs, within stated bounds |
| FixedPointExp.ExpIsSafe | packages/protocol/script/eip1559_util.py:9-37 | For every input between the cut-offs: reduced remainder, final shift to the right, both polynomials positive |
| FixedPointExp.FitsWords | packages/protocol/script/eip1559_util.py:15-37 | Every intermediate value fits a signed 256-bit word and the last product an unsigned one |
| FixedPointExp.ExpOfOne | packages/protocol/script/eip1559_util.py:8-39 | exp of 1 to the last decimal |
| FixedPointExp.ExpOfZero | packages/protocol/script/eip1559_util.py:8-39 | exp of 0 is exactly 1 |
| ExpLaws.ExpNeverFalls | packages/protocol/script/eip1559_util.py:8-39 | A larger input never has a smaller result, for all inputs below the upper cut-off: floors, the lower cut-off and changes of exponent included |
| ExpLaws.MagnitudeAbove | packages/protocol/script/eip1559_util.py:15-39 | With k times ln 2 taken out of the input and r left, the result is above 2^k * (1 + r), less a unit |
| ExpLaws.MagnitudeBelow | packages/protocol/script/eip1559_util.py:15-39 | It is at most 2^k / (1 - r), with a unit more |
| ExpLaws.ExpAboveLine | packages/protocol/script/eip1559_util.py:8-39 | 1 + x <= exp(x) for all inputs below the upper cut-off, not off by a unit |
| ExpLaws.ExpBelowHyperbola | packages/protocol/script/eip1559_util.py:8-39 | exp(x) * (1 - x) <= 1 for all those inputs, to within a unit |
| ExpLaws.ZeroAtTheLowCutoff | packages/protocol/script/eip1559_util.py:9-10 | The result is 0 up to the lower cut-off and, by the formula itself, well above it: nothing jumps there |
| ExpLaws.FitsBelowHighCutoff | packages/protocol/script/eip1559_util.py:12-13 | Below the upper cut-off every result fits a signed 256-bit word |
| ExpLaws.EthQtyDefined | packages/protocol/script/eip1559_util.py:80-84 | The quantity is exp of the quotient where that is defined and the largest value of exp where it is not; it is always defined and at least 1 |
| Transactions.TenAttempts | packages/eventindexer/pkg/repo/erc20_balance.go:117-157 | A transaction that commits after deadlocks only is carried through exactly when there are fewer than ten of them |
| Erc20Balances.TransferOfNothing | packages/eventindexer/pkg/repo/erc20_balance.go:117-157 | A transfer of nothing changes no row there is, an empty one included |
| Erc20Balances.BalanceIsLedgerPlusMissed | packages/eventindexer/pkg/repo/erc20_balance.go:31-115 | After any history on any table each balance is the ledger's plus exactly the debits that met no row |
| Erc20Balances.FollowsLedgerIff | packages/eventindexer/pkg/repo/erc20_balance.go:86-115 | The table follows the ledger on every holder exactly when no debit meets a missing row |
| Erc20Balances.AffordableFollowsLedger | packages/eventindexer/indexer/index_erc20_transfers.go:162-188 | In log order from an empty table, with senders that can afford their transfers, every balance equals the simple ledger (zero address credited, never debited) and is never negative |
| Erc20Balances.FindsPositiveHoldings | packages/eventindexer/pkg/repo/erc20_balance.go:159-176 | The query shows exactly the holder's rows on the chain whose ledger balance is positive |
| Erc20Balances.TotalIsMinted | packages/eventindexer/pkg/repo/erc20_balance.go:31-157 | The table's total of a contract grows by exactly what the contract mints |
| Erc20Balances.OrderDoesNotMatter | packages/eventindexer/pkg/repo/erc20_balance.go:86-115 | Two orders of the same transfers in which no debit meets a missing row leave equal balances |
| Erc20Balances.LateMintKeepsSpentTokens | packages/eventindexer/pkg/repo/erc20_balance.go:87-93 | A concrete reordering after which a spender still shows tokens |
| Erc20Balances.Erc20BalanceRepository.IncreaseBalanceInDB | packages/eventindexer/pkg/repo/erc20_balance.go:31-68 | Adds to the row, creating it if there is none, and touches no other |
| Erc20Balances.Erc20BalanceRepository.DecreaseBalanceInDB | packages/eventindexer/pkg/repo/erc20_balance.go:70-115 | Subtracts from the row, deletes it at zero, ignores a missing one, and touches no other |
| Erc20Balances.Erc20BalanceRepository.IncreaseAndDecreaseBalancesInTx | packages/eventindexer/pkg/repo/erc20_balance.go:117-157 | Succeeds exactly when one of ten attempts commits after deadlocks only; then both updates are applied once, otherwise not at all |
| Erc20Indexer.SaveERC20Transfer | packages/eventindexer/indexer/index_erc20_transfers.go:82-191 | Saved exactly when the data decodes, the metadata is found and the transaction commits; then the log's value moves from the account in its first indexed topic to the one in its second, no other balance moves, and otherwise nothing does |
| Erc20Indexer.SavedLogMoves | packages/eventindexer/indexer/index_erc20_transfers.go:83-188 | Saving a log credits the account in topic 2 and debits the one in topic 1, unless that is the zero address or has no row, by the log's value, and moves no other balance |
| Erc20Indexer.IndexERC20Transfers | packages/eventindexer/indexer/index_erc20_transfers.go:29-57 | In whatever order the workers finish, the table is that of the saved transfers in some order, no error means none is missing, and every balance moves by what the saved logs say exactly when no debit met a missing row |
| Erc20Indexer.LedgerOfLogs | packages/eventindexer/indexer/index_erc20_transfers.go:83-188 | The ledger of the saved transfers is the one read off the logs' own topics and values |
| Erc20Indexer.RunFollowsTheLogs | packages/eventindexer/indexer/index_erc20_transfers.go:29-191 | A run in any order leaves every balance where the logs put it exactly when no debit met a missing row |
| Erc20Indexer.RunsPermute | packages/eventindexer/indexer/index_erc20_transfers.go:36-52 | Any two interleavings save the same transfers, each the same number of times |
| Erc20Indexer.WorkersMayFinishInAnyOrder | packages/eventindexer/indexer/index_erc20_transfers.go:36-52 | Any two interleavings in which no debit meets a missing row end with the same balances, the ledger's |
| Erc20Indexer.FundedSendersMakeOrderIrrelevant | packages/eventindexer/indexer/index_erc20_transfers.go:36-52 | If each sender debited starts with at least all that the saved transfers take from it, every interleaving follows the ledger and ends with the same balances |
| NftBalances.BalanceIsLedgerPlusMissed | packages/eventindexer/pkg/repo/nft_balance.go:32-113 | After any history each NFT balance is the ledger's plus the dropped debits, in 64-bit arithmetic |
| NftBalances.NftBalanceRepository.IncreaseBalanceInDB | packages/eventindexer/pkg/repo/nft_balance.go:32-67 | Adds to the row in 64 bits, creating it if there is none |
| NftBalances.NftBalanceRepository.DecreaseBalanceInDB | packages/eventindexer/pkg/repo/nft_balance.go:69-113 | Subtracts in 64 bits, deletes the row at zero, ignores a missing one |
| NftBalances.NftBalanceRepository.IncreaseAndDecreaseBalancesInTx | packages/eventindexer/pkg/repo/nft_balance.go:115-157 | Both updates once on success, nothing on failure; success exactly when an attempt commits after deadlocks only |
| NftIndexer.SaveERC721Transfer | packages/eventindexer/indexer/index_nft_transfers.go:116-159 | Saves one movement of amount 1, its id cut to 64 bits |
| NftIndexer.ERC721LogMoves | packages/eventindexer/indexer/index_nft_transfers.go:116-159 | One token moves from the account in topic 1 to the one in topic 2 under the low 64 bits of the id in topic 3, and nothing else moves |
| NftIndexer.SaveBatch | packages/eventindexer/indexer/index_nft_transfers.go:218-262 | The pairs of a batch are saved in order up to the first that does not commit; an id without a value panics after all pairs |
| NftIndexer.SaveERC1155Transfer | packages/eventindexer/indexer/index_nft_transfers.go:163-266 | Which prefix of the event's movements is saved, and that no error means all of them |
| NftIndexer.ERC1155EntryMoves | packages/eventindexer/indexer/index_nft_transfers.go:163-266 | An entry's value moves, under its id, from the account in topic 2 to the one in topic 3, not the operator's in topic 1 |
| NftIndexer.BatchPairMoves | packages/eventindexer/indexer/index_nft_transfers.go:214-263 | The i-th movement of a batch is of its i-th id and value, between those two accounts |
| NftIndexer.BatchIsItsSingles | packages/eventindexer/indexer/index_nft_transfers.go:174-262 | A batch leaves the table that its pairs leave as single events in the same order, repeated ids included |
| NftOwnership.RowCountsOwned | packages/eventindexer/indexer/index_nft_transfers.go:116-159 | Over any valid ERC-721 history a row outside the zero address counts the ids its holder owns that share the row's 64-bit id |
| NftOwnership.ZeroRowCountsBurns | packages/eventindexer/indexer/index_nft_transfers.go:130-151 | The zero address's row counts burns and never shrinks |
| NftOwnership.OneRowPerTokenIff | packages/eventindexer/indexer/index_nft_transfers.go:119-151 | Each token has one row of amount 1 outside the zero address exactly when no two owned ids of a contract agree in their low 64 bits |
| NftOwnership.CollidingIdsShareARow | packages/eventindexer/indexer/index_nft_transfers.go:119-119 | Two ids 2^64 apart share one row of amount 2 |
| BlockRevenue.CalculateBlockRevenueEfficient | packages/eventindexer/indexer/track_epoch_gas.go:280-346 | The loop's value, which the rounding bound below is about; the gas is the reported one, or 50000 for each transaction where none is reported, and without a base fee there is neither |
| BlockRevenue.TipAgainstPriorityFee | packages/eventindexer/indexer/track_epoch_gas.go:308-325 | The tip taken is never below EIP-1559's priority fee, and above it exactly for a blob or set-code transaction whose tip cap binds |
| BlockRevenue.NotOverestimatedIff | packages/eventindexer/indexer/track_epoch_gas.go:305-345 | With equal gas per transaction, the estimate is at most the exact revenue exactly when what overpriced transactions add to the tips is no more than what the two floors take away |
| BlockRevenue.RevenueRoundingBound | packages/eventindexer/indexer/track_epoch_gas.go:305-345 | With equal gas per transaction and no such transaction, the estimate is at most the exact revenue and short of it by less than 2 wei per gas |
| BlockRevenue.NeverFarShort | packages/eventindexer/indexer/track_epoch_gas.go:305-345 | With such transactions too, the estimate is never short by 2 wei per gas |
| BlockRevenue.BlobIsOverestimated | packages/eventindexer/indexer/track_epoch_gas.go:318-325 | A blob transaction that tips nothing counted at its whole fee cap |
| Epochs.EpochHoldsTime | packages/eventindexer/indexer/track_epoch_gas.go:199-222 | From genesis on, a time's epoch number is the one whose start and next start enclose it; before genesis it is 0 |
| Epochs.SupportedChains | packages/eventindexer/indexer/track_epoch_gas.go:46-82 | Which chains are tracked, with epochs of 32 slots of 12 seconds |
| Epochs.GroupsPartition | packages/eventindexer/indexer/track_epoch_gas.go:126-156 | Cutting at each later epoch number partitions the blocks in order |
| Epochs.RunFollowsGroups | packages/eventindexer/indexer/track_epoch_gas.go:89-123 | Saved, lost and current epochs of any run summarise, in order, the groups of its blocks: number, first proposer, count, revenue, gas, transactions, start and end block, end time |
| Epochs.EpochNumbersIncrease | packages/eventindexer/indexer/track_epoch_gas.go:126-141 | Epochs of a run have strictly increasing numbers |
| EpochRuns.EachInItsEpochIff | packages/eventindexer/indexer/track_epoch_gas.go:126-156 | Every block is in the epoch of its timestamp exactly when the blocks' epoch numbers never fall, as with timestamps that never fall |
| EpochRuns.TilesIff | packages/eventindexer/indexer/track_epoch_gas.go:158-196 | The epochs' block ranges tile with counts equal to their lengths exactly when no block in between was missed, even when saves fail |
| EpochTotals.TrackTotals | packages/eventindexer/indexer/track_epoch_gas.go:89-123 | One block adds exactly its share to what saved, lost and current epochs hold together |
| EpochConservation.Conservation | packages/eventindexer/indexer/track_epoch_gas.go:247-276 | Revenue, block and transaction counts over saved, lost and current epochs equal the sums over the blocks added, and gas does modulo 2^64 |
| EpochTracker.Indexer.EndCurrentEpoch | packages/eventindexer/indexer/track_epoch_gas.go:348-361 | Saving ends the epoch; a failed save leaves it current with its end time set |
| EpochTracker.Indexer.StartNewEpochForBlock | packages/eventindexer/indexer/track_epoch_gas.go:159-196 | The new epoch's number, start and first block, the latter after a lost epoch's last block |
| EpochTracker.Indexer.AddL2BlockToEpoch | packages/eventindexer/indexer/track_epoch_gas.go:247-276 | The block's revenue, gas, transactions and number are added to the current epoch |
| EpochTracker.Indexer.TrackL2BlockForEpoch | packages/eventindexer/indexer/track_epoch_gas.go:89-123 | Errors change nothing; any other block past the start of preconfirmation goes through the state machine |
| EpochTracker.Indexer.ProcessNewL2Blocks | packages/eventindexer/indexer/track_l2_blocks.go:61-80 | A poll tracks exactly the fetchable blocks past the last processed one, in order, and moves that to the last block handled |
| EpochTracker.TrackedAre | packages/eventindexer/indexer/track_l2_blocks.go:68-77 | A poll tracks a block exactly when it is past the last processed one, from the start of preconfirmation on, and can be fetched |
| EpochTracker.SavedEpochsAre | packages/eventindexer/indexer/track_epoch_gas.go:348-361 | The epochs stored are just those ended with a save that succeeded |
| EpochTracker.NoBlockTwice | packages/eventindexer/indexer/track_l2_blocks.go:68-77 | Over any polls, blocks are added in strictly increasing number, so none twice |
| EpochTracker.TrackedCount | packages/eventindexer/indexer/track_l2_blocks.go:68-77 | A poll adds as many blocks as it moves past exactly when no fetch before the last good one failed |
| EpochTracker.ConsecutiveAfterPoll | packages/eventindexer/indexer/track_l2_blocks.go:68-77 | A run of consecutive blocks stays one after a poll exactly under that condition |
| ProfitGate.PaddingIs | packages/relayer/processor/process_message.go:447-451 | The gas limit grows by a tenth for a contract and a twentieth otherwise, rounded down, and zero stays zero |
| ProfitGate.CostModulo | packages/relayer/processor/is_profitable.go:40-43 | However its 64-bit operations wrap, the gate compares the fee with the true cost modulo 2^64 |
| ProfitGate.ProfitableVerdictIsRightIff | packages/relayer/processor/is_profitable.go:29-43 | A profitable verdict is right exactly when the true cost fits 64 bits |
| ProfitGate.GateIff | packages/relayer/processor/is_profitable.go:29-43 | While costs fit, the gate passes exactly messages with gas whose fee exceeds the cost |
| ProfitGate.WrappedPricePasses | packages/relayer/processor/is_profitable.go:40-43 | A concrete wrap that lets a fee of one wei through |
| ProfitGate.OnlyGatedAreSent | packages/relayer/processor/process_message.go:456-502 | With the gate on, every transaction sent passed it |
| ProfitGate.GateRefusesWith | packages/relayer/processor/process_message.go:456-502 | Without a fee or gas the gate's error is that processing is impossible; with a fee no higher than the cost in 64 bits, or an estimate above the limit, that it is unprofitable |
| ProfitGate.SentIff | packages/relayer/processor/process_message.go:399-546 | A transaction is sent exactly when the message is received, every answer before it is good, the gate passes, the status is new and this relayer may process it |
| ProfitGate.SendErrors | packages/relayer/processor/process_message.go:399-574 | Which error stands for not received, not processable and reverted; there is none exactly when a transaction is mined and its status stored |
| ProfitGate.GatedPaysItsEstimate | packages/relayer/processor/process_message.go:448-502 | While products fit, a transaction sent has a fee above its estimated cost, which is the true cost of the gas estimated |
| ProfitGate.CountedProfitableIff | packages/relayer/processor/process_message.go:553-567 | A transaction counted as profitable cost less than its fee exactly when its cost fits 64 bits |
| ProfitGate.CountedProfitAddsUp | packages/relayer/processor/process_message.go:551-567 | Over any history within 64 bits, fees of transactions counted as profitable exceed their costs by at least a wei each, and the counters add up |
| ProfitGate.TallyCounts | packages/relayer/processor/process_message.go:536-567 | Each counter is the number of transactions of its kind |
| ProfitGate.Sender.CheckProfitable | packages/relayer/processor/is_profitable.go:19-75 | The verdict, its record and its counter |
| ProfitGate.Sender.SendProcessMessageCall | packages/relayer/processor/process_message.go:399-574 | At most one transaction is handed over, the one specified, and the counters stay the tally of all sent |
| MessageProcessing.RequeuedIffPaused | packages/relayer/processor/process_message.go:108-239 | A message is put back exactly when it reaches the pause check and the bridge is paused; an error never puts it back |
| MessageProcessing.DoneIff | packages/relayer/processor/process_message.go:108-239 | Processing ends without an error and without requeueing exactly when the message is past its retries, below the fee or not processable, or a transaction for it is mined and recorded |
| MessageProcessing.MinFeeStopsOnlyLowerFees | packages/relayer/processor/process_message.go:116-124 | A fee below the minimum ends the processing without an error; any other is treated as if there were no minimum |
| MessageProcessing.QuotaStopsOnlyFungibles | packages/relayer/processor/process_message.go:161-198 | Quota never stops an NFT; ether and ERC-20 are stopped exactly by a failed look-up or a failed wait |
| MessageProcessing.DroppedOrParked | packages/relayer/processor/process_message.go:456-502 | At the gate, a message without fee or gas is dropped and one whose fee does not exceed its cost in 64 bits is parked in the unprofitable queue |
| MessageProcessing.PassGates | packages/relayer/processor/process_message.go:108-239 | The gates in order: the result, and that a transaction is handed over only past all of them |
| MessageProcessing.AnsweredOnce | packages/relayer/processor/processor.go:462-530 | Any result answers the queue once unless its error is transient; when it puts the message back, publishes it as unprofitable, or drops it |
| MessageProcessing.GatesComeToResult | packages/relayer/processor/process_message.go:108-239 | The gates taken one atomic step at a time come to the same result |
| Workers.StepKeepsInv | packages/relayer/processor/process_message.go:81-112 | Each atomic step keeps the shared set equal to the hashes of active workers, each held by one |
| Workers.Run | packages/relayer/processor/processor.go:450-534 | In every interleaving of arrivals and steps that invariant holds |
| Workers.MutualExclusion | packages/relayer/processor/process_message.go:96-106 | No two workers past the guard ever have the same hash |
| Workers.AllReturnedReleasesAll | packages/relayer/processor/process_message.go:101-106 | Once all workers have returned nothing is held |
| Workers.StepsEnd | packages/relayer/processor/process_message.go:101-239 | Every step of a worker brings it closer to returning, so each exit path is reached and releases |
| Workers.FinishedAnswersOnce | packages/relayer/processor/processor.go:460-530 | A worker that has returned has answered once but for a transient error, and its message is refused for good exactly when it carries no event, its hash was held, or its gates came to an error that drops it |
| Workers.EveryHashIsTaken | packages/relayer/processor/process_message.go:82-106 | Once all workers have returned, every hash that arrived has been taken by one of them, so a message is turned away only in favour of another with its hash |
| Workers.Processor.CheckHash | packages/relayer/processor/process_message.go:82-94 | Refuses a held hash and takes a free one |
| Workers.Processor.Step | packages/relayer/processor/process_message.go:81-239 | One atomic step of a worker is the specified transition and keeps the invariant |
| Workers.Processor.EventLoop | packages/relayer/processor/processor.go:450-534 | Under any scheduling every worker returns with its gates' result or a refusal and has told the queue so; the shared set ends empty and every hash that arrived was taken |
| BlockRanges.TilesCoverOnce | packages/relayer/indexer/indexer.go:397-442 | Ranges that tile contain each block of the span exactly once and no other |
| RelayerRanges.BatchesTile | packages/relayer/indexer/indexer.go:397-442 | A window's batches tile it, none longer than a batch |
| RelayerRanges.FollowsTheHead | packages/relayer/indexer/indexer.go:339-442 | When not crawling, a pass asks for every block after the latest indexed one up to the head, each once and within a batch |
| RelayerRanges.InitialBlockIs | packages/relayer/indexer/set_initial_Indexing_block_by_mode.go:12-62 | Where indexing starts, from stored blocks, genesis height and mode, and exactly when it does not start |
| RelayerRanges.CrawlWindow | packages/relayer/indexer/indexer.go:351-384 | The exact window of a crawl pass, and when it leaves the newest blocks out |
| RelayerRanges.TargetAsksForTheBlockAfter | packages/relayer/indexer/indexer.go:361-367 | With a target block, exactly the block after it is asked for |
| RelayerRanges.Indexer.SetInitialIndexingBlockByMode | packages/relayer/indexer/set_initial_Indexing_block_by_mode.go:12-62 | The starting block from genesis height, stored blocks and mode, and when there is none |
| RelayerRanges.Indexer.FilterPass | packages/relayer/indexer/indexer.go:339-445 | With a head and not crawling, a pass succeeds, moves to the head and adds ranges for just the blocks in between, so that all ranges ever asked for tile the blocks from the start; crawling, it asks for exactly its window's batches |
| EventFilter.OpensWithTheLaterFork | packages/eventindexer/indexer/filter.go:140-148 | A pass opens at the later of the fork it was at and the latest block's; from flags not set, at the latter |
| EventFilter.PassTilesIff | packages/eventindexer/indexer/filter.go:150-207 | A pass's filtered ranges tile exactly when no filtered cut batch is followed by another filtered batch |
| EventFilter.NoCutIsSafe | packages/eventindexer/indexer/filter.go:150-207 | Without a cut nothing is skipped, and a pass ends at the head or right before the range that failed |
| EventFilter.FailedRangeIsRetriedFirst | packages/eventindexer/indexer/filter.go:202-206 | The next pass starts with the range that failed |
| EventFilter.RunAfterPass | packages/eventindexer/indexer/filter.go:126-210 | Over many passes the ranges tile exactly when no pass skips blocks |
| EventFilter.SkipsShowBeforehand | packages/eventindexer/indexer/filter.go:150-172 | Blocks are skipped only if an unflagged fork lies inside a batch that is not the last, which the head tells before the pass, and always then if all filters succeed |
| EventFilter.CutsShowBeforehand | packages/eventindexer/indexer/filter.go:150-172 | The same for cuts |
| EventFilter.BelongsIff | packages/eventindexer/indexer/filter.go:183-200 | A range is filtered for its own fork exactly when each fork's flag says whether the range starts at the fork or after it and the fork is not inside the range |
| EventFilter.CallsBelongIff | packages/eventindexer/indexer/filter.go:140-200 | Every range of a pass is filtered for its own fork exactly when the flags fit every one |
| EventFilter.SameForkFits | packages/eventindexer/indexer/filter.go:140-200 | If the flags stand for the fork of the next block and of the head, every range is filtered for its own fork, whatever the filters answer |
| EventFilter.EachBlockForItsForkIff | packages/eventindexer/indexer/filter.go:140-200 | When all filters succeed, every block up to the head is filtered for its own fork exactly then and if no unflagged fork lies inside a batch |
| EventFilter.CutRangeIsFilteredForTheNextFork | packages/eventindexer/indexer/filter.go:153-200 | A cut range ends before its fork and is filtered for a later one: wrongly unless it is empty or past Pacaya anyway |
| EventFilter.RangeEndingAtAForkIsMisfiltered | packages/eventindexer/indexer/filter.go:153-200 | A range whose last block is the first of an unflagged fork is not cut and is filtered for the wrong fork |
| EventFilter.ForkAtBatchEndGoesUnnoticed | packages/eventindexer/indexer/filter.go:140-200 | A concrete pass without a cut in which both ranges are filtered for the fork before |
| EventFilter.CutSkipsBlocks | packages/eventindexer/indexer/filter.go:150-172 | A concrete cut after which eight blocks are never filtered |
| EventFilter.Indexer.FilterPass | packages/eventindexer/indexer/filter.go:126-210 | Latest block, flags, ranges and calls after a pass, errors included; over the whole run the ranges tile exactly when nothing was skipped, and every call was for its own fork exactly when the flags fitted each |

## Left out

- Nodes, SQL, the queue, contexts, tickers, logging, metrics other than the counters named, and command lines: a call
  to them is a parameter holding its answer, a database transaction is atomic, a table is a map.
- UTF-8 validation and `filepath.Match` are arbitrary functions, so the results hold for any.
- Hashing and the JSON of a queue message; event signatures are their keccak-256 constants.
- ERC-20 amounts are integers; their decimal strings in the table, and their parsing and printing, are library code.
- BridgeMessage.DecodeDataAsNFT: takes every slice past the data as a panic; Go's runtime allows one past the length but
  within the underlying array's capacity.
- `DecodeRevertReason` and the estimates that use it.
- fork-diff's ignore patterns and the rendering of the page; the order in which "other changes" lists its files.
  A definition's `Sub` is kept as the children read from the file followed by the one appended.
- ExpLaws.EthQtyDefined: takes the floor division by the adjustment factor as a parameter, because that factor is a
  floating-point number.
- Looking up and creating token metadata, which comes before the balance update: its outcome is a parameter.
- The worker loop over NFT logs, which is the one proved for ERC-20 logs.
- NftOwnership.RowCountsOwned: assumes a history of fewer than 2^63 events, past which a 64-bit row cannot count.
- The rows returned by the balance updates.
- The time-series table's keys: an epoch saved there may replace an earlier row; the model keeps every save.
- BlockRevenue.RevenueRoundingBound: is about blocks that report their gas, less than 2^63 of it; for a block that
  reports none the gas itself is an estimate.
- ProfitGate.PaddedGasLimit: pads in integers; the source multiplies in floating point, which for 32-bit gas limits cuts to
  the same integers.
- The retry header and the unprofitable queue's expiry; proof generation; quotas beyond their two answers.
- A transaction manager's send is one step of its worker; whether a call to the queue succeeds is not modelled.
- Workers.Processor.EventLoop: takes the token kind that the quota gate asks for as an answer of the outside; what it is for
  given call data is `BridgeMessage.MessageOutcome`.
- Erc20Balances and NftBalances each have their own ledger, one over unbounded integers and one in 64 bits, as the two tables
  do.
- RelayerRanges.CrawlWindow: is about heads no lower than the crawl's depth; below it the unsigned difference wraps. Block
  numbers so near 2^64 that adding a batch wraps are not modelled.
- The indexers' events themselves: what a filter does inside its range, and the retries of one range.
- Proposer, prover, driver, watchdog, ejector, user interfaces, contracts and generated bindings, whose properties would be
  easy or belong to code not modelled here.
