# Block store, ledger and row history of an OurSQL node

A node of OurSQL keeps a tree of blocks with one selected main chain. Beside the
blocks it keeps tables that are updated step by step: the doubly linked chain
table, the unspent outputs, an index of transactions over all branches, the last
writer of every row, and the rows of the replicated database itself. A pool holds
transactions that wait for a block. This project models those tables and the code
that maintains them, and proves that at every moment they say what one would get
by walking the chain from its top and computing everything again.

## How the model is built

The managers of the node keep no state of their own; each works on the tables of
one database. `Database.DB` is that database, with one field per table, and every
manager is a module of methods that take it. A method that updates a table is
proved against a specification function of the blocks (`BlockTree.Path`,
`Ledger.UtxoOf`, `RowReferences.LastWriter`, `SqlHistory.Replay`), and the lemmas
say what these functions promise.

| module | what it holds |
|---|---|
| Types, Slices, BlockTree, BlockchainIterator | values, list reversal, stored blocks as a tree, the walk along parents |
| ChainTable, Database, BlockchainManager, BranchQueries | chain table, adding and deleting blocks, fork choice, ancestor and range queries |
| Ledger, TransactionIndex, TransactionLookup | what a branch means for money, the index over all branches, lookups under a tip |
| UnspentOutputs, UnspentCancel, UnspentScan | the table of unspent outputs: add, cancel, scan |
| Verifier, Safety, Money | what verification accepts, double spending, conservation |
| SqlHistory, RowOrder, StatementRuns, RowReferences | statements with their undo, what may change places, what stands in the way of statements, last writers of rows and bases |
| Pool, PoolRuns | pending transactions, pools built by verified additions |
| CascadeOrder, CascadeFate, Cascade, CascadeRows | the cascade of cancellations: its orders, whether it stops, the code, the rows after it |
| BlockExecution, UndoRows | the commands of a block beside pending ones, when a block or branch can be taken back |
| BranchTables, BranchExchange | what whole branches do to pool and last writers, blocks and branches that join and leave the main chain |
| NodeState, Node | the invariants and what they are worth; first block, a block comes in, the top is dropped |
| Submissions, Overtaking, SpentAgain | runs of the node on accepted blocks, and two of them that go wrong |
| MinerChoice | transactions for a new block |
| CoinSelection, Payments, Balances | choosing outputs, preparing a payment, balances |
| Merkle, ImportBatches | Merkle root, cutting existing tables into first blocks |

Hashes, transaction ids and key hashes are numbers, with 0 for the empty or all-zero
byte string. Amounts are whole numbers of 1e-8 coins, so the comparison within 1e-8 at
node/structures/transaction.go:231 becomes equality. MySQL tables are maps,
serialisation is the identity. The order in which a Go map or a table is visited is
left open. Calls into the database that can fail only for technical reasons do not
fail here; errors that the code itself decides on are modelled.

## What was found

Where the code does not meet its own promise the model keeps the code, shows an
input and proves when the promise holds.

- `VerifyBlock` accepts two transactions of one block that spend the same output
  (node/consensus/blockmaker.go:328-349). A branch stays free of double spending
  exactly when the inputs of the block are pairwise distinct
  (`Safety.AcceptedIsLiveIff`, `Safety.DoubleSpendAccepted`). The miner's side sees to
  that for its own blocks (`MinerChoice.MinedIsDistinct`).
- Cancelling a block leaves the loop over the inputs of a transaction at the first
  input from the same block (node/transactions/unspent.go:603), so later inputs are not
  restored. Cancelling undoes adding exactly when every earlier transaction that the
  block spends is reached (`UnspentCancel.CancelUndoesAddIff`,
  `UnspentCancel.CancelCanLoseOutputs`); it suffices that same-block inputs come last.
- Removing a block from the index drops every record of the outputs it spent,
  whichever block spent them. The index stays right exactly when no remaining block
  spends one of them (`TransactionIndex.RemovedCoversIff`, `Node.DropBlock`). Otherwise
  verification takes a spent output for unspent (`TransactionLookup.KnownIsSpends`): in
  `SpentAgain.SpendAgain` two branches spend one output, the one on top is dropped, and a
  block on the other that spends the output again is accepted.
- The index of rows restores the previous writer and then deletes it
  (node/transactions/rowsreferences.go:83-90). It is restored exactly when no row of the
  block had a writer before (`RowReferences.CancelRestoresIff`,
  `RowReferences.CancelLosesWriter`).
- So an exchange of branches loses last writers: a right index is right for the new top
  exactly when no row that only blocks of the old branch write has a writer on what both
  share (`BranchExchange.IndexAfterExchangeIff`). Of all other rows the record is right.
- A base of an insert is looked for in the block under the row and under its table before
  the main chain is asked for the row (node/transactions/manager.go:1050-1074). So where the
  row has a writer on the main chain and the block names the table before, the last writer
  is refused as a base (`RowReferences.AcceptedBaseIff`).
- References do not always tell rows and tables apart: a row with the key `*` has that of its
  table (node/dbquery/parsed.go:26-32). Such a key, or a colon in a table name, is the only way
  (`SqlHistory.SameReferenceIff`).
- A block can become the top without sitting on it although the old top is one of its
  ancestors: after a drop, when the remaining top has stored descendants. Then unspent
  outputs and rows stay behind at the old top (`Node.AddBlock`, `Node.Overtakes`); a run
  of five accepted blocks that ends with a wrong table is `Overtaking.Overtaken`. As long
  as blocks only come in this cannot happen (`Node.HighestIsNotOvertaken`).
- When that old top is the genesis block the program stops: the search for the common
  block fails, and its missing result is read for the log before the error is looked at
  (node/blockchain/manager.go:770-777).
- An undo that fails ends an exchange of branches half-way, with the unspent outputs at a
  block of the old branch. On whatever rows, that happens exactly when on some row
  something is in the way of the undo statements of the old branch: its table is gone, a
  row that they insert is present, or a column that they set is missing
  (`UndoRows.BranchUndoneIff`, `StatementRuns.RunsUnlessInTheWay`, `Node.Ends`). A pending
  command on such a row can bring it about (`BlockExecution.PendingRowStopsUndo`), pending
  commands on other rows cannot (`BlockExecution.BlockTakenBack`).
- A change of exactly one smallest unit is left out of a prepared payment, and
  verification then refuses it (`Payments.PaymentPassesIff`).
- The cascade of cancellations undoes a transaction before those based on it, and an undo
  that fails ends it early. Where it is certain on each row which cancelled command comes
  first, it runs to its end exactly when on each row the undo statements run in that order
  (`CascadeFate.CertainDecides`, `CascadeFate.RunsByRows`). Where it is not, the outcome can
  depend on the order in which the pool is visited (`CascadeRows.OrderMatters`). Whatever
  the order, it runs to its end when the undo statements are harmless for each other, as
  those of inserts and of updates of existing columns always are
  (`CascadeRows.SafeIsHarmless`), and it stops when a cancelled command has no undo, when a
  cancelled creation of a table has a command on the table behind it, and when a cancelled
  deletion has the row inserted again behind it (`Cascade.RollbackConflictingFromPool`,
  `CascadeRows.StopsAtTable`, `CascadeRows.StopsAtRow`).
- Where the cascade runs to its end the rows can still be wrong: after two updates of one
  row the value of the first one stays (`CascadeRows.LeavesCancelledValue`). They are right
  when nothing pending was executed after a cancelled command on its row
  (`CascadeRows.CascadeTakesBack`).
- A miner's list from which a transaction was weeded out gives a block that is refused
  exactly when a kept transaction spends an output of one that was weeded out
  (`MinerChoice.MinedIsAcceptedIff`). A list of pending transactions none of which names one
  input twice needs no weeding (`MinerChoice.PoolNeedsNoWeeding`).
- The search for a row's base off the main chain compares a missing alternative
  reference with the empty one and so differs from the index
  (`RowReferences.IndexIsSearchIff`).
- With a greatest minimum above 1000 an import of more than 1001 blocks makes one that is
  too small (`ImportBatches.MinimumMetIff`).
- The Merkle root does not tell an odd list from the list with its last element
  repeated (`Merkle.RootIgnoresRepetition`).

## Model

| member | source | states |
|---|---|---|
| Database.DB.AddToChain | node/database/blockchain.go:145-189 | refused unless the hash is not empty and the parent is the end of the list; otherwise the list grows by one record |
| Database.DB.RemoveFromChain | node/database/blockchain.go:192-238 | refused unless the hash is the end of the list; otherwise exactly this record goes and its neighbour becomes the end |
| Database.DB.BlockInChain | node/database/blockchain.go:240-254 | an error for the empty hash, else whether there is a record |
| ChainTable.LinkedExtends | node/database/blockchain.go:145-189 | adding above the last block turns the doubly linked list of a path into that of the longer path |
| ChainTable.UnlinkedShrinks | node/database/blockchain.go:192-238 | removing the last block turns the list of a path into that of the path without it |
| ChainTable.LinksExactlyOne | node/database/blockchain.go:145-238 | a path has only one chain table: keys and both neighbours of every record are determined |
| ChainTable.InChainIsOnPath | node/database/blockchain.go:240-254 | a block has a record exactly when the walk from the top meets it |
| BlockchainIterator.Iterator.Next | node/blockchain/iterator.go:41-65 | returns the current block and moves to its parent; an unknown hash is an error |
| BlockchainIterator.VisitAll | node/blockchain/iterator.go:41-65 | calling Next until there is no parent visits exactly the path, top down |
| BlockTree.PathAt | node/blockchain/iterator.go:41-65 | every position of a path holds the stored block of that height, whose own path is the part below |
| BlockTree.TreeGrows | node/blockchain/manager.go:54-153 | a block above a stored parent keeps the tree; its path is the parent's plus itself, other paths stay |
| BlockTree.TreeShrinks | node/blockchain/manager.go:253-291 | a block without children can go; all other paths stay |
| Slices.ReverseBlocksSlice | node/structures/block.go:41-51 | the slice is reversed in place |
| BlockchainManager.FindMergePoint | node/blockchain/manager.go:159-196 | from the new top down to the first block the chain table knows: a common ancestor of both tops, and the new blocks above it in order |
| BlockchainManager.UnlinkOldBranch | node/blockchain/manager.go:197-222 | the old branch is taken off the table down to the merge point; no removal is refused |
| BlockchainManager.LinkNewBranch | node/blockchain/manager.go:224-241 | the new branch is put on the table; no addition is refused |
| BlockchainManager.UpdateChainOnNewBranch | node/blockchain/manager.go:159-242 | a table that followed the old top follows the new one afterwards, without an error |
| BlockchainManager.AddBlock | node/blockchain/manager.go:54-153 | the chain table stays the path to the top; blocks and top follow the fork choice; each of the five answers is returned in exactly its case |
| BlockchainManager.DeleteBlock | node/blockchain/manager.go:253-291 | drops a top that is not genesis and has no child: the parent is the new top, the table its path, other paths stay |
| BlockchainManager.TopIsFirstOfGreatestHeight | node/blockchain/manager.go:54-153 | after every run of submissions the stored blocks form a tree of the arrived blocks and the top is the first arrival of greatest height |
| BranchQueries.GetSideBranch | node/blockchain/manager.go:656-757 | errors for unknown tips and for tips below height 1; else the highest common ancestor, the side branch from its tip down and the main branch up |
| BranchQueries.SplitCovers | node/blockchain/manager.go:650-757 | the path of the common block and either half make up the whole branch |
| BranchQueries.SplitDisjoint | node/blockchain/manager.go:650-757 | no block is in both halves |
| BranchQueries.GetBranchesReplacement | node/blockchain/manager.go:767-792 | nothing exactly when the side tip lies under the other tip, else both halves of the split; where there is no split, for unknown tips and below height 1, the program stops |
| BranchQueries.ChooseHashUnderTip | node/blockchain/manager.go:815-944 | a listed hash that the walk from the tip meets, exactly when there is one, for tips on and off the main chain; an unknown tip is an error |
| BranchQueries.CheckBlockIsInRange | node/blockchain/manager.go:947-1054 | with a bottom under the tip, true exactly for blocks on the path between them; for other bottoms what true and false still mean |
| BranchQueries.GetNextBlocks | node/blockchain/manager.go:544-593 | a block on the main chain comes with its successors up the path, until the top, 1000 blocks or the requested number is reached, whichever is first; a block off the main chain comes alone, an unknown one is an error |
| Ledger.FoldSplits | node/transactions/unspent.go:467-562 | later transactions act on earlier unspent outputs only by spending them |
| Ledger.FoldFront | node/transactions/unspent.go:373-458 | seen from behind, a transaction contributes its outputs that nothing later spends |
| Ledger.UnspentIff | node/transactions/unspent.go:467-562 | an output is unspent exactly when it exists, has an address and no transaction of the branch spends it; then with its owner, value and block |
| Ledger.NoDoubleSpend | node/transactions/manager.go:622-703 | on a branch on which each transaction may follow the ones before, no two transactions spend the same output |
| TransactionIndex.BlockAdded | node/transactions/index.go:47-127 | the index covers one block more: in which blocks a transaction is, and which inputs use its outputs |
| TransactionIndex.BlockRemoved | node/transactions/index.go:140-233 | the listing of the block goes, and every record of an output that the block spent, from whatever block |
| TransactionIndex.RemovedCoversIff | node/transactions/index.go:196-233 | the index then covers the remaining blocks exactly when none of them spends such an output |
| TransactionIndex.RemovalForgetsSpending | node/transactions/index.go:196-233 | a spending that a remaining block shares with the removed one was recorded before and has no record any more |
| TransactionLookup.GetTransactionOutputsSpent | node/transactions/index.go:368-425 | of the recorded uses exactly those between the holding block and the tip |
| TransactionLookup.HolderUnderTip | node/transactions/index.go:472-507 | a block that holds the transaction under the tip, exactly when the branch has the transaction |
| TransactionLookup.GetTransactionAllInfo | node/transactions/index.go:428-469 | nothing exactly when the branch does not hold the transaction, else it, its block, and uses that name exactly the outputs known to be spent on that branch; also after a drop that left a spending without record |
| TransactionLookup.KnownIsSpends | node/transactions/index.go:368-469 | with an index of all stored blocks, what a lookup under a tip takes for spent is exactly what the branch spends |
| UnspentOutputs.UpdateOnBlockAdd | node/transactions/unspent.go:467-562 | from the unspent outputs of a path to those of the path with one block more |
| UnspentCancel.UpdateOnBlockCancel | node/transactions/unspent.go:567-654 | lists of the block's transactions go, lists that the loops reach become those of the parent, others stay as they are |
| UnspentCancel.CancelUndoesAddIff | node/transactions/unspent.go:567-654 | cancelling a block gives back the parent's unspent outputs exactly when every earlier transaction that the block spends is reached |
| UnspentCancel.OwnInputsLastSuffices | node/transactions/unspent.go:592-606 | that is so when in every transaction the inputs from the block itself come last |
| UnspentCancel.CancelCanLoseOutputs | node/transactions/unspent.go:592-606 | a block that verification accepts on a branch in order, and that is not taken back correctly |
| UnspentScan.FindUnspentTransactions | node/transactions/unspent.go:373-458 | the backward scan with its map of spent outputs finds exactly the unspent outputs of the main chain |
| UnspentScan.Reindex | node/transactions/unspent.go:319-367 | afterwards the table holds the unspent outputs of the main chain, whatever it held before |
| Verifier.StateOfInputs | node/transactions/manager.go:622-703 | refused exactly when an input found on the branch is known to be spent on it; else for every input its transaction, or that the branch does not have it |
| Verifier.InputsWereBefore | node/transactions/pending.go:202-245 | refused exactly when an input from outside the branch is not of an earlier transaction of the block or repeats another such input |
| Verifier.VerifyTx | node/structures/transaction.go:162-236 | a reward has one output of the fixed value; otherwise every input is an output of the signer, no output is too small, and the totals are equal |
| Verifier.VerifyTransaction | node/transactions/manager.go:552-590 | accepts exactly the transactions whose inputs are outputs of the signer, on the branch and not known to be spent, or earlier in the block, and whose totals agree |
| Verifier.VerifyBlock | node/consensus/blockmaker.go:278-355 | accepts exactly the blocks with an admissible number of transactions, one reward, and only transactions that are in order after those before them, as far as the index knows what is spent |
| Safety.AcceptedIsLiveIff | node/consensus/blockmaker.go:328-349 | an accepted block keeps its branch free of double spending exactly when its inputs are pairwise distinct |
| Safety.DoubleSpendAccepted | node/consensus/blockmaker.go:328-349 | a block that is accepted although two of its transactions spend the same coin |
| Money.MoneySupply | node/structures/transaction.go:162-236 | on a branch of verified blocks, unspent value plus value in outputs without address is the reward times the number of blocks |
| Money.CoinsArePositive | node/structures/transaction.go:162-236 | on a branch of verified blocks every unspent output has a positive value |
| Money.SupplyOfBlock | node/consensus/blockmaker.go:324-353 | a verified block adds exactly one reward to the supply |
| SqlHistory.MakeUpdateRollback | node/dbquery/parsed.go:153-178 | fails exactly when a column to be restored is not in the row read before; else sets these columns back |
| SqlHistory.MakeDeleteRollback | node/dbquery/parsed.go:181-197 | inserts the row as it was read before |
| SqlHistory.UndoRestores | node/dbquery/parsed.go:56-77 | the undo of a successful statement restores all rows exactly; dropping a table has none |
| SqlHistory.SameReferenceIff | node/dbquery/parsed.go:26-32 | when two statements have one reference: they are about the same row or the same table, or a row has the key `*`, or a table name holds a colon at the right place |
| SqlHistory.ImageIsRow | node/dbquery/parsed.go:153-197 | the image that the previous writers of one row left is the row in the replayed database: other rows do not interfere |
| SqlHistory.UndoAllRestoresIff | node/transactions/manager.go:347-369 | running the carried undo statements backwards over the end of any history succeeds exactly when it drops no table, and then gives the rows of its beginning |
| RowOrder.OrderKept | node/transactions/manager.go:450-470 | commands that keep their order on every row may be executed in another order overall: a block's missing commands after the pending ones give the rows of the block before the remaining pending ones |
| RowOrder.UndoUnder | node/transactions/manager.go:237-274 | the undo of a command takes back this command alone when everything executed after it is on other rows |
| BlockExecution.RollbackBlock | node/transactions/manager.go:347-369 | the undo statements run last transaction first, rewards skipped; it fails exactly when one of them does, and then the rows are those before that one |
| BlockExecution.BlockTakenBack | node/transactions/manager.go:347-369 | with pending commands on other rows all undo statements of a block run and lead to the rows of the branch below it, the pending commands still in effect |
| BlockExecution.PendingRowStopsUndo | node/transactions/manager.go:347-369 | a branch, a block with its reward and a pending command whose row makes the undo of the block fail |
| StatementRuns.ExecAllByRows | node/transactions/manager.go:347-369 | statements run one after the other exactly when on every row those on the row do |
| StatementRuns.RunsUnlessInTheWay | node/transactions/manager.go:347-369 | undo statements on a row that were made for one state of it run from another exactly unless the table is gone, or before any other than updates a row to be inserted is present or a column to be set is missing |
| UndoRows.BlockUndoneIff | node/transactions/manager.go:347-369 | on whatever rows, taking back a block fails exactly when something is in the way on some row |
| UndoRows.BranchUndoneIff | node/nodemanager/node.go:496-507 | the same for all blocks of a branch down to the common one |
| BlockExecution.TransactionsFromAddedBlock | node/transactions/manager.go:441-470 | the cascade, and when it has run to its end the commands that are not pending, up to the first that fails |
| BlockExecution.BlockRuns | node/transactions/manager.go:441-470 | executing a block gives the rows of the chain with the block followed by what is still pending, when nothing conflicts or the cancelled commands came last on their rows, and row order is kept |
| BlockExecution.MinedFromPool | node/transactions/manager.go:450-470 | that is so for a block of pending transactions executed before the others, in particular for a dropped block that comes again |
| RowReferences.WrittenIsLast | node/transactions/rowsreferences.go:98-131 | entering a block turns an index of the last writers of a branch into that of the branch with the block |
| RowReferences.GetTxForRefByTip | node/transactions/rowsreferences.go:144-184 | the search from a tip finds the last writer under it, else the last transaction with the alternative reference |
| RowReferences.IndexIsSearchIff | node/transactions/manager.go:1104-1136 | index lookup and search agree except when no alternative is given, the row has no writer and some SQL transaction has an empty reference |
| RowReferences.CheckBaseTransaction | node/transactions/manager.go:1157-1200 | accepts exactly the base found in the earlier transactions of the block or else in the index, whatever that holds; with a right index exactly the base that the branch gives |
| RowReferences.VerifyBases | node/consensus/blockmaker.go:328-349 | the same for all transactions of a block on top of the main chain |
| RowReferences.AcceptedBaseIff | node/transactions/manager.go:1030-1136 | a row nobody has written: exactly the last transaction with the table's reference is a base of an insert, and nothing one of an update or deletion; a written row: exactly its last writer, unless an insert finds the table, and not the row, earlier in the block |
| RowReferences.FitsBoth | node/transactions/manager.go:1101-1136 | with a right index, what the index accepts as a base is what the search on the branch accepts |
| RowReferences.CheckedIsLatest | node/transactions/manager.go:1030-1074 | an accepted base is an earlier transaction after which nobody has written the row |
| RowReferences.LinearHistories | node/transactions/manager.go:1157-1200 | on a chain of blocks checked on top, two transactions that write one row never have the same base |
| RowReferences.UpdateOnBlockCancel | node/transactions/rowsreferences.go:30-94 | records that the block's transactions still own are deleted, also where a previous writer is known |
| RowReferences.CancelRestoresIff | node/transactions/rowsreferences.go:76-90 | that restores the index of the parent exactly when no row of the block had a writer before |
| RowReferences.CancelLosesWriter | node/transactions/rowsreferences.go:76-90 | a block with its reward and a checked base whose cancellation loses the writer of a row |
| NodeState.NeverSpentTwice | node/transactions/manager.go:622-703 | whenever the stored branches are in order, no output is spent twice on the path to any stored block |
| NodeState.SupplyIsRewards | node/consensus/blockmaker.go:324-353 | then unspent value and value without address make up one reward per block, on every stored branch |
| NodeState.TableHoldsRewards | node/consensus/blockmaker.go:324-353 | when money is in order the records of the table of unspent outputs, with the value without address, add up to one reward per main chain block |
| NodeState.MainChainIsLinear | node/transactions/manager.go:1157-1200 | with right last writers no two transactions of the main chain continue one row from the same base |
| BranchExchange.BlockAddedToPrimaryChain | node/transactions/manager.go:331-344 | outputs, last writers and pool move from the parent of a block to the block, also when a command fails; the rows when `RowsFollow` holds |
| BranchExchange.BlockRemovedFromPrimaryChain | node/transactions/manager.go:347-377 | fails exactly when something is in the way of an undo, and then outputs and last writers stay and the rows are those before the failing undo; else they move from the block to its parent; rows too, and none fails, with pending commands on other rows |
| BranchExchange.LeaveBranch | node/nodemanager/node.go:496-507 | cancelling a branch top down leads to the outputs of the common block, the rows before the branch and the index without it exactly when all undo statements run one after the other, else everything is at the block where one failed |
| BranchExchange.JoinBranch | node/nodemanager/node.go:508-516 | adding a branch bottom up leads to the outputs of its tip and enters all its writers; every pending transaction stays unless it is in the branch, conflicts with it or is based on one that has to go; the rows are those of the tip when the pending transactions have nothing to do with it |
| BranchExchange.ReplaceBranch | node/nodemanager/node.go:487-521 | for any two branches and any rows, outputs end as those of the new top exactly unless something is in the way of the undo statements of the old branch; pool, rows and last writers then are those of the old branch left and the new one joined; with unrelated pending commands nothing is in the way and the rows are those of the new top; an old top under the new one is skipped, below height 1 the program stops |
| BranchTables.JoinedPool | node/nodemanager/node.go:508-516 | when blocks join, a pending transaction goes only if it is in one of them or in every set that holds the conflicts with them and is closed under "based on"; their own transactions are pending no more |
| BranchTables.WrittenByChain | node/nodemanager/node.go:508-516 | after blocks joined, a row that one of them writes has their last writer as record, any other row keeps its record |
| BranchTables.LeavingCancels | node/nodemanager/node.go:496-507 | when a branch is left, a record that is right goes exactly when a block of the branch writes its row |
| BranchExchange.ExchangeMeans | node/nodemanager/node.go:487-521 | after an exchange the pool is the old one but for the new branch, what conflicts with it and what is based on that; a row written on the new branch has the last writer of the new main chain, one that only the old branch writes has none, others keep their record |
| BranchExchange.IndexAfterExchangeIff | node/nodemanager/node.go:487-521 | a right index of rows is right for the new top exactly when no row that only the old branch writes has a writer below the branches |
| BranchExchange.LeavingIff | node/blockchain/manager.go:767-792 | the blocks that leave, or join, are exactly the stored blocks on the one branch and not on the other |
| Node.AddFirstBlock | node/nodemanager/blockchain_create.go:230-277 | a new database with the genesis block has money and rows in order, and last writers when genesis carries no command |
| Node.VerifyAndStore | node/nodemanager/blockchain.go:97-126 | known blocks and blocks without parent are turned away; of the others exactly those that verification accepts are stored, with all branches in order |
| Node.BlockAdded | node/transactions/manager.go:292-312 | the index always covers the block; on top, unspent outputs, last writers and pool follow it, and the rows where they can; else nothing changes |
| Node.AddBlock | node/nodemanager/node.go:458-541 | whatever block is submitted, whatever is pending and whatever outputs, rows and last writers hold: blocks, index and branches stay in order; the answer, in particular which blocks are rejected and when an exchange fails; the block whose unspent outputs the table then holds if it held those of the old top; rows as for the block or the exchange; which pending transactions stay and which last writer every row has; a highest top stays highest |
| Node.HighestIsNotOvertaken | node/blockchain/manager.go:116-141 | a top of greatest height cannot be overtaken, and the fork choice keeps it of greatest height |
| Node.DropBlock | node/nodemanager/node.go:547-557 | all branches stay in order, the index exactly when no remaining block shares a spending; outputs become those of the parent; the commands stay in effect before the pending ones; everything pending stays, and the transactions of the block are pending again but for rewards and conflicts (`Pool.BroughtBackMeans`) |
| Overtaking.LeftBehindIsWrong | node/nodemanager/node.go:490-521 | tables that were left behind are wrong for a top with a new unspent output |
| Overtaking.Overtaken | node/nodemanager/node.go:458-557 | a run of five accepted blocks, with a least number of one transaction, and one drop after which the table of unspent outputs is that of the old top and not that of the top |
| SpentAgain.Dropped | node/nodemanager/node.go:547-557 | two accepted branches spend one output; after the drop of one the branches and outputs are in order, the index is not, and the spending on the other is not known |
| SpentAgain.SpendAgain | node/transactions/manager.go:682-696 | then a block on the other branch that spends the output again is accepted |
| Pool.UnapprovedTransactions.RenewCache | node/transactions/pending.go:60-105 | the copy in memory becomes the table, or goes when the table is too large |
| Pool.UnapprovedTransactions.DetectConflictsForNew | node/transactions/pending.go:696-739 | a pending transaction that shares an input, or base and row, with the new one, exactly when there is one |
| Pool.UnapprovedTransactions.Add | node/transactions/pending.go:546-589 | a transaction joins unless it conflicts; table and copy stay equal and free of conflicts |
| Pool.UnapprovedTransactions.Delete | node/transactions/pending.go:594-632 | one transaction leaves table and copy; reports whether it was there |
| Pool.UnapprovedTransactions.DeleteFromBlock | node/transactions/pending.go:654-665 | all transactions of a block but the reward leave, and nothing else |
| Pool.UnapprovedTransactions.AddFromCanceled | node/transactions/pending.go:797-812 | everything pending stays; the transactions of the block join but for rewards and those in conflict with one that is pending then |
| Pool.BroughtBackMeans | node/transactions/pending.go:797-812 | a transaction of a cancelled block that is no reward and conflicts with nothing pending and nothing in the block is pending again under its id; what is left out conflicts with a transaction that is pending |
| Pool.UnapprovedTransactions.FindSQLBasedOnTransaction | node/transactions/pending.go:912-934 | exactly the pending SQL transactions based on one |
| Pool.PoolIsSafe | node/transactions/pending.go:546-812 | after every run of operations no two pending transactions share an input, and no two commands with one reference have the same base |
| PoolRuns.JoinedIsInOrder | node/transactions/manager.go:521-590 | a pool built by verified additions on an unchanged chain can follow the chain in the order of joining; no transaction names an input twice, and all use what belongs to their signers |
| PoolRuns.PaymentsCanBePrepared | node/transactions/manager.go:844-930 | such a pool has what the preparation of a payment relies on: no output of a pending transaction is on the chain, and none has a negative value |
| Cascade.CancelTransaction | node/transactions/manager.go:237-274 | succeeds exactly when the transaction is pending and its undo runs; then it leaves the pool and the undo has run, else nothing changes |
| Cascade.CancelFollowers | node/transactions/manager.go:414-437 | the growing list of cancelled transactions is worked off, in an order of discovery, until all that is based on one is gone or an undo fails |
| Cascade.RollbackConflictingFromPool | node/transactions/manager.go:381-438 | undo statements run in an order of discovery; exactly the least set goes that holds the conflicts and is closed under "based on", or an undo failed; which of both is told beforehand, exactly where the order on each row is certain, else by `CannotStop` and `MustStop`; when it runs to its end nothing pending conflicts with the block or is based on what is gone |
| Cascade.NoneWithoutReason | node/transactions/manager.go:381-438 | whatever is cancelled conflicts with a command of the block or is a command based on something cancelled, also when an undo has failed |
| CascadeFate.HarmlessRuns | node/transactions/manager.go:381-438 | undo statements that run, and still run after any single other one that can come before, run in every order |
| CascadeFate.BlockedStops | node/transactions/manager.go:381-438 | no order of discovery undoes a set with a command without undo, a created table with a command behind it, or a deleted row inserted again behind it |
| CascadeOrder.LowerFirst | node/transactions/manager.go:381-438 | what is fewer bases away from a conflict, or as many away from one with an earlier transaction of the block, is cancelled earlier |
| CascadeOrder.SameOrder | node/transactions/manager.go:381-438 | members whose ranks differ are cancelled in the same order by every run |
| CascadeOrder.FoundRising | node/transactions/manager.go:381-438 | members that differ in rank are cancelled with rising ranks |
| CascadeOrder.CompleteExists | node/transactions/manager.go:381-438 | for every pool and block everything that has to go can be found, each with a rank |
| CascadeFate.CertainDecides | node/transactions/manager.go:381-438 | where on each row the ranks of the cancelled commands differ, the cascade runs to its end exactly when the undo statements run in the order of one complete discovery |
| CascadeFate.RunsByRows | node/transactions/manager.go:381-438 | and they run exactly when on every row those on the row run |
| CascadeRows.SafeIsHarmless | node/transactions/manager.go:381-438 | inserts and updates of existing columns never stop a cascade |
| CascadeRows.CascadeTakesBack | node/transactions/manager.go:381-438 | if nothing pending came later on their rows, cancelling runs to its end and the rows are those of the chain with the remaining pending transactions |
| CascadeRows.StopsAtTable | node/transactions/manager.go:381-438 | a pool and a block of verified transactions for which the undo of a creation stops the cascade |
| CascadeRows.StopsAtRow | node/transactions/manager.go:381-438 | a pool and a block for which already the first undo fails, that of a deletion |
| CascadeRows.OrderMatters | node/transactions/manager.go:381-438 | a pool and a block of verified transactions for which the cascade stops or not, depending on which of two conflicts is met first |
| CascadeRows.LeavesCancelledValue | node/transactions/manager.go:381-438 | a pool and a block for which every run of the cascade is complete and leaves a value that no remaining transaction wrote |
| MinerChoice.DetectConflicts | node/transactions/pending.go:750-794 | splits a list so that the kept transactions, in their order, name no input twice, and keeps every position that shares no input with an earlier one |
| MinerChoice.UnsharedIsDistinct | node/transactions/pending.go:750-794 | nothing is weeded out exactly when no input is named twice |
| MinerChoice.MinedIsDistinct | node/consensus/blockmaker.go:233-265 | a block of kept transactions with a reward at the end names no output twice |
| MinerChoice.ChooseVerified | node/transactions/manager.go:133-168 | position by position of the pending transactions, one is chosen exactly when it is in order after those chosen before it, in currency and in its base; all others, in their order, are those that are cancelled in the pool |
| MinerChoice.ForNewBlock | node/transactions/manager.go:133-190 | an error exactly when no transaction of the list is in order on the top; else the chosen ones in their order without those that name an input again, among them each that shares no input with an earlier one; pool and rows are those after the others were cancelled |
| MinerChoice.PickedInOrder | node/transactions/manager.go:133-168 | a list chosen so follows the main chain in order, in currency and in bases, and is empty exactly when none of the transactions may follow the top |
| MinerChoice.CancellingMeans | node/transactions/manager.go:237-274 | cancelling a list takes nothing else from the pool, and leaves one of the list there only if it carries a command whose undo did not run |
| MinerChoice.MinedIsAcceptedIff | node/consensus/blockmaker.go:128-174 | a block of kept transactions and a reward is accepted by verification exactly when every input of a kept one is on the branch or of an earlier kept one, and then spends nothing twice |
| MinerChoice.PoolNeedsNoWeeding | node/transactions/pending.go:750-794 | nothing is weeded out of pending transactions none of which names one input twice |
| CoinSelection.SpendableOutputs | node/transactions/unspent.go:134-161 | lists, once each, exactly the unspent outputs of the owner that pending transactions do not use |
| CoinSelection.ChooseSpendableOutputs | node/transactions/unspent.go:120-185 | all outputs when they do not reach the amount; else the smallest, which reach it and fall below it without the last |
| CoinSelection.NoneUsesMore | node/transactions/unspent.go:163-182 | no set of outputs that reaches the amount without a superfluous member has more members |
| Payments.GetCurrencyTXsPreparedBy | node/transactions/pending.go:254-342 | the inputs an address uses in the pool, the pending outputs it does not use, and the inputs that are no pending outputs of it |
| Payments.ExtendInputs | node/transactions/unspent.go:704-728 | pending outputs are added until the amount is reached, which happens exactly when they suffice |
| Payments.PreparePayment | node/transactions/manager.go:844-930 | succeeds exactly when spendable outputs are worth the positive amount and there is a receiver; its inputs are different spendable outputs; the outputs addressed to the receiver are worth the amount, those addressed to the payer the change of more than one unit, and nobody else receives anything |
| Balances.PaymentMovesAmount | node/transactions/manager.go:894-930 | with a prepared payment behind the pool, the unspent outputs of the receiver are worth exactly the amount more, those of the payer the amount less, and one unit less still when the change is one unit; those of everybody else are worth the same |
| Balances.SpendableIsLeft | node/transactions/unspent.go:134-161 | what an address can spend beside the pool is exactly what it owns after the pool |
| Payments.PaymentPassesIff | node/transactions/manager.go:904-906 | a prepared payment passes Verify exactly when the change is not one smallest unit |
| Payments.PaymentIsFree | node/transactions/manager.go:844-892 | a prepared payment has distinct inputs and conflicts with no pending transaction |
| Balances.GetInputValue | node/transactions/unspent.go:85-117 | the value of an unspent output, or that it is not unspent |
| Balances.GetAddressBalance | node/transactions/manager.go:93-119 | approved and pending balance in terms of unspent outputs and pool, when no pending transaction names one input twice; fails exactly when an input that should be approved is not unspent |
| Balances.BalanceIsAfterPool | node/transactions/manager.go:959-1007 | approved plus pending balance is the balance after applying all pending transactions |
| Merkle.NewMerkleTree | lib/utils/merkle_tree.go:20-51 | no access is out of range for a non-empty list, the result is the root, every node holds the hash of its children, and the leaves from left to right begin with the hashes of the data in order |
| Merkle.LevelsEnd | lib/utils/merkle_tree.go:34-46 | half as many rounds as leaves always end in one node and its copy |
| Merkle.RootBinds | lib/utils/merkle_tree.go:20-70 | two different lists of equal length with one root exhibit a collision of the hash |
| Merkle.RootIgnoresRepetition | lib/utils/merkle_tree.go:23-27 | repeating the last element of an odd list keeps the root |
| ImportBatches.DumpIsSlice | node/database/manager.go:537-600 | a partial dump is the slice of the whole dump and never empty before its end |
| ImportBatches.AddExistentTables | node/nodemanager/blockchain_create.go:301-381 | terminates; the blocks in order are the dumps in order, all but the last hold exactly the limit, and the step behind the loop has nothing to do |
| ImportBatches.MinimumMetIff | node/consensus/proofofwork.go:145-155 | every imported block reaches the minimum for its height exactly when the greatest minimum is at most 1000 or there are at most 1001 blocks |

## Left out

- MySQL access, encodings, hex keys and table creation: tables are maps and decoding never fails.
- SQL parsing and quoting: statements come as kind, table, key and columns. Updates of the key column, NULL values and statements over several rows are not modelled.
- Signatures, key formats, SHA-256 and the proof of work: a transaction carries the key hash of its signer, and the Merkle part takes the hash as a parameter.
- Network, proxy, command line, configuration, permissions, paid SQL and goroutines: the block-adding step is serialised by a lock and modelled as one step.
- Sender and reward flag of an unspent record: both are rebuilt from the spender when a block is cancelled, so records are compared on transaction, index, owner, value and block.
- An input index outside of the outputs stops the original program; `Verifier.VerifyTx` answers with a refusal.
- Heights of submitted blocks are taken for granted (`Node.Submittable`), because the code relies on them without a check; of blocks that verification accepts also new transaction ids, distinct inputs that can be restored, commands that run and carry a fitting undo, and that rewards carry no command.
- Repeating the transactions of cancelled blocks after a reorganisation.
- Node.AddBlock: the base of SQL transactions is checked only for blocks on the top, as in the code. What is rejected is told exactly for whatever the index of rows holds, but that this keeps histories linear needs a right index, which the cancellation of a block does not keep. The index of transactions is taken to be right before: after a drop that left a shared spending without record, verification itself goes wrong (`SpentAgain.SpendAgain`).
- BranchExchange.ReplaceBranch: the rows at the end are claimed for pending commands on other rows than those that are left or joined, and before the transactions of the cancelled blocks are repeated.
- Node.DropBlock: does not choose another branch, like the code; a remaining top can then be lower than other stored blocks. That the block's transactions come back is claimed for ids that stand for one transaction, as hashes do.
- Cascade.RollbackConflictingFromPool: where two cancelled commands on one row have the same rank, its exact condition does not apply; the outcome can then depend on the order in which the table of pending transactions is visited (`CascadeRows.OrderMatters`).
- MinerChoice.ForNewBlock: which transactions are taken from the pool, and in what order, is left open.
- References of rows and tables are values of their own; that two can have one string (`SqlHistory.SameReferenceIff`) is not followed further.
- UnspentOutputs.UpdateOnBlockAdd: lists without outputs count as no list, since the code may store an empty one.
- CoinSelection.SortByValue: stands for the library's sort; the order among equal values is not specified by it, and nothing that is proved depends on it.
- ImportBatches.AddExistentTables: the tables do not change during the import, and it is taken for granted that every block that is made takes all statements collected for it.
- Choosing a base among pending transactions, the transaction history of an address, reading the first blocks and short block lists: these would add only easy members.
