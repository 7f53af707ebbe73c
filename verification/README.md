# A verified model of the fortis address index

`crates/fortis-index` keeps an address index of a blockchain in RocksDB while blocks arrive, are
reorganised away, are flushed, and the process crashes, and while readers look at it. Everything it
serves should agree with one simple thing: replaying the current chain from its first height. This
project models that index, and two cores of `crates/fortis-edge`, in Dafny 4.11 and proves what they
promise. `dafny verify dfyconfig.toml` checks all of it.

| module | models |
|---|---|
| `Types`, `Ledger` | the rows of the index and what a chain's replay is: `Replay(chain)` and its meaning |
| `Extract` | transactions to rows: P2WPKH outputs, and spends attributed by their witness |
| `Storage`, `Db` | write batches, undo records, the write-ahead log, `apply` / `rollback` / `prune_undo` / `flush` |
| `Chain`, `Machine` | what the store holds for a linked chain; every run of commits, rollbacks, prunes, flushes, publications and crashes |
| `Relocation` | an emptied index that begins again at another height |
| `ChainState` | the in-memory block table and the reader's view loop |
| `Sync` | the `Syncer` class over a changing node chain; each method's effect is a run of `Machine` |
| `Fetch` | the fetch pipeline as a step protocol over hash stage, workers and reorder stage |
| `Spends`, `Refusals` | the budgeted, cached, resumable search for the transaction that spent an output, and when it is right to refuse |
| `Mempool`, `Tracker` | the mempool view, its incremental refresh, and the merged UTXO listing |
| `Newest`, `Scan` | history newest first, the capped coin listing and `POST /scan` |
| `Render` | confirmed transactions rendered through a cache of txid-prefixed rows |
| `Keys`, `UndoCodec` | the byte encodings of keys, values and undo records |
| `Limiter`, `LnFee` | the token-bucket limiter and the Lightning fee exemption |
| `Compose` | what one module assumes, proved from another |

## How to read it

- Fixed-width byte strings (programs, txids, hashes) are the big-endian numbers they spell; `Keys`
  proves that encoding exact and order-preserving.
- A chain is `Linked(chain, start)`: consecutive heights, each block naming its parent, and
  consensus-valid. Consensus is stated on rows as `ValidTxs`; `Extract` derives it from raw
  transactions that obey the rules of BIP 141, section "Witness program".
- The disk is a base store, the log of batches since, and how many of them a flush has covered. A
  bulk batch is not in the write-ahead log, a durable one is. A crash keeps the flushed prefix and
  replays the durable batches after it.
- Failing I/O is a budget in `Db` (`healthy`); node answers are function parameters, so every method
  is proved for every behaviour of the node.
- `Machine.Run` is any sequence of steps; the environment may crash or flush in the background at any
  point. `Sync.Syncer` carries the run its own writes make and proves each is one, so what holds of
  every run holds of the syncer.

## What turned out not to hold

The code is modelled as it is. Each item names the lemma with an input and the one with the condition.

- `rollback` panics on a block that `apply` accepts: `Db.StuckBlock` gives one, and by `Db.StuckWhen`
  it is exactly a block whose last transaction has the number `MAX_TXNUM`, because the exclusive end
  of its range does not fit five bytes.
- An output whose funding block is more than 2016 blocks deep is refused unsearched, also when it was
  spent within those blocks, unless what an earlier call learned is still of use: `Refusals.RefusedFork`.
  For every entry of no use on the current chain, the calls end up linear on every chain with a given
  tip iff the tip is at most 2016 above: `Refusals.RefusalIsExact`.
- A search that ran out of its window stays "out of range" for good. `Refusals.StaleFork` moves any
  such entry to a chain where the spend lies in the window and the answer is wrong; by
  `Refusals.ExhaustedIsExact` the entry can be trusted on chains that keep the lowest h blocks iff
  those include the whole window. Comparing the hash of the window's last block, which the code does
  not store, would do: `Refusals.ExhaustedStillRight`.
- A reader pairs table and snapshot by tip alone. A database begun at another height than
  `--start-height` is accepted, and moves there once the node's tip has fallen below it and everything
  is rolled back; `Sync.Syncer.Step` allows for it. `Relocation.PairingCanMix` gives the two runs of
  such a process, and a table of the first that pairs with a snapshot of the second whose rows differ.
  Between any two runs a table is the snapshot's iff both runs begin at one height:
  `Relocation.PairedAcrossRuns`.
- A node behind the index on the same chain is waited for only if its tip is among the indexed
  heights; below them everything is rolled back: `Sync.WaitsWhen`, `Sync.Syncer.Unwind`.
- A capped UTXO listing counts a coin twice, in number and in value, iff it is pending and among the
  coins the cap cuts off: `Scan.UtxoRowsCapped`, with an input for every cap in `Scan.CountedTwice`.
- The per-address caps of `POST /scan` can hide a recent transaction when one that was kept is still
  pending: `Newest.CapCanLose`, exact condition in `Newest.CapExactWhen`.
- `used` in a scan omits addresses with only confirmed history iff `history` is 0:
  `Scan.UsedNeedsHistory`.
- `POST /scan` removes repeated address strings, not repeated programs: the two spellings of one bech32
  address list its coins twice, `Scan.SpelledTwice`. Each outpoint is listed once iff no program with
  anything to show is asked for twice: `Scan.OnceUnlessAliased`.
- When call times go backwards the limiter earns the same seconds again: `Limiter.OutOfOrderOvergrants`.
  A dropped bucket can be seen then too, with any key cap: `Limiter.EvictionSeenOutOfOrder`. It cannot as
  long as every call is harmless, that is, the key's dropped bucket would have refilled by the time of
  the call: `Limiter.EvictionUnobservable`. That condition is exact, `Limiter.EvictionIsExact`, and under
  it a key is allowed at most its capacity plus rate times the forward movement of its own clock:
  `Limiter.AllowedAtMost`.

## Model

| member | source | states |
|---|---|---|
| Ledger.UtxoIsFundedMinusSpent | crates/fortis-index/src/db.rs:369-475 | for a consensus-valid list of transactions, folding the puts and deletes leaves exactly the outputs funded and never spent |
| Ledger.UtxoValues | crates/fortis-index/src/db.rs:405-416 | an unspent output keeps the value its transaction gave it and the height of that block |
| Ledger.HistoryIsTouches | crates/fortis-index/src/db.rs:435-442 | history holds a (program, txnum) pair iff transaction number txnum touches that program |
| Chain.ReplayMeaning | crates/fortis-index/src/db.rs:369-475 | every family of the index, coin values, block rows and tip included, is characterised by the current chain alone, with no reference to how it was built |
| Ledger.ReplayExtends | crates/fortis-index/src/db.rs:369-475 | replaying a longer chain is applying the new blocks, in any batch sizes, to the replay of the shorter |
| Storage.RollbackInverts | crates/fortis-index/src/db.rs:512-559 | rolling a block back with its undo record restores every family exactly, for any block whose outputs are new, including coins created and spent inside it |
| Storage.CrashIsAPrefix | crates/fortis-index/src/db.rs:54-60 | if no durable write follows an unflushed bulk write, a crash recovers an exact earlier state, losing only trailing bulk writes |
| Db.KnownIsPre | crates/fortis-index/src/db.rs:479-506 | looking a spent coin up in the batch first and the committed rows second finds its value before the block, even when the batch is uncommitted |
| Db.Db.SpentValues | crates/fortis-index/src/db.rs:479-506 | collects the value of every coin the block spends that exists before it, each once |
| Db.TracksTx | crates/fortis-index/src/db.rs:399-443 | one transaction keeps the undo record equal to the difference between the coins before the block and now |
| Db.Db.BlockBatch | crates/fortis-index/src/db.rs:388-456 | the batch of one block writes its replay and an undo record that is exactly the difference; refuses iff a txnum would exceed the limit |
| Db.Db.Apply | crates/fortis-index/src/db.rs:369-475 | one atomic batch whose result is the replay of the blocks, with an undo record per block that undoes exactly it; succeeds iff every txnum fits and the write does; on any error nothing changes |
| Db.Db.Rollback | crates/fortis-index/src/db.rs:512-559 | one durable batch that is the inverse of the block, or no change; succeeds, or gives each error, exactly under its own condition, the panic at the txnum limit among them |
| Db.StuckWhen | crates/fortis-index/src/db.rs:543-549 | of the blocks `Apply` takes, `Rollback` panics on exactly those whose last transaction has the largest txnum |
| Db.StuckBlock | crates/fortis-index/src/db.rs:543-549 | a block that is applied and cannot be taken back |
| Db.Db.PruneUndo | crates/fortis-index/src/db.rs:562-568 | drops exactly the undo records below the height, and nothing else |
| Db.Db.Flush | crates/fortis-index/src/db.rs:571-578 | succeeds iff the device does, then covers the whole log; changes no visible row |
| Chain.ApplyIndexes | crates/fortis-index/src/db.rs:369-475 | applying linked blocks, with or without undo, takes the index of a chain to the index of the longer chain and keeps every undo record right |
| Chain.RollbackIndexes | crates/fortis-index/src/db.rs:512-559 | rolling back the top block of an indexed chain leaves exactly the index of the chain below |
| Chain.PruneIndexes | crates/fortis-index/src/db.rs:562-568 | pruning leaves the index of the same chain |
| Chain.ChainUndoable | crates/fortis-index/src/db.rs:385-456 | consensus makes every multi-block batch on an indexed chain undoable block by block |
| Machine.RunsReplay | crates/fortis-index/src/sync.rs:193-260 | in every state of every run, crashes included, the store is the replay of the current linked chain |
| Machine.UndoIsSufficient | crates/fortis-index/src/sync.rs:235-250 | every indexed block within 288 of the highest node tip ever seen has a record that undoes exactly it, in every state of every run |
| Machine.CrashesRecoverAChain | crates/fortis-index/src/sync.rs:52-54 | whatever a crash leaves at any point of any run is the replay of one linked chain the index has had, no durable write is lost, undo stays sufficient and the startup checks accept it |
| Machine.CrashIsAStep | crates/fortis-index/src/main.rs:210-217 | a crash is possible from every reachable state with any background flush, so the previous claim is never vacuous |
| Machine.HoleWithoutFlush | crates/fortis-index/src/sync.rs:118-125 | two batches that are correct applies of linked blocks, the first in bulk and not flushed before the second: the crash leaves rows that are no chain's replay |
| Machine.PairedViewsAgree | crates/fortis-index/src/chainstate.rs:97-115 | a published table and a store snapshot taken at any two points of a run that name the same tip belong to one chain, and the table is exactly the snapshot's block rows |
| Machine.PairingNeedsOneStart | crates/fortis-index/src/chainstate.rs:97-115 | chains with equal tips are equal iff they begin at the same height |
| Relocation.PairedAcrossRuns | crates/fortis-index/src/chainstate.rs:97-115 | a table published in one run and a snapshot of another that name the same tip agree iff the two runs begin at the same height |
| Relocation.PairingCanMix | crates/fortis-index/src/sync.rs:104-129 | a process that opens an index begun at height 1 with `--start-height` 0: unwound below its first height and begun again, its old table and its new snapshot name one tip and differ |
| Machine.EmptyStartsAnywhere | crates/fortis-index/src/sync.rs:198 | once rollbacks have emptied the index, nothing a crash could bring back is left, so it may begin again at any height |
| Machine.LoadedTable | crates/fortis-index/src/main.rs:210-217 | a store that indexes a chain passes the startup checks and only that chain's table can be loaded from it |
| ChainState.PartitionPoint | crates/fortis-index/src/chainstate.rs:60-68 | the binary search splits the table into ranges ending at or before the txnum and ranges ending after it |
| ChainState.HeightOf | crates/fortis-index/src/chainstate.rs:60-68 | the height found is of the only block whose range holds the txnum, empty blocks notwithstanding; none iff no block holds it |
| ChainState.FromDb | crates/fortis-index/src/chainstate.rs:23-39 | rows load iff their heights are gapless; an error names the first gap |
| ChainState.View | crates/fortis-index/src/chainstate.rs:97-115 | returns only a pair whose tips agree, and gives up only after 1000 disagreeing samples |
| ChainState.TableNumbered | crates/fortis-index/src/chainstate.rs:53-57 | a chain's table numbers its ranges without gaps and the next txnum is the chain's transaction count |
| ChainState.BlockTable.Push | crates/fortis-index/src/chainstate.rs:71-77 | the table gains exactly the row, taking its height as first when empty |
| ChainState.BlockTable.Pop | crates/fortis-index/src/chainstate.rs:79-82 | removes and returns exactly the tip row, or nothing when empty |
| Sync.Syncer.constructor | crates/fortis-index/src/sync.rs:66-92 | a restart on a store indexing a chain from any first height is a fresh run on that chain |
| Sync.Syncer.FlushIfDirty | crates/fortis-index/src/sync.rs:118-122 | after success no bulk write is pending; chain and table unchanged; fails only with the device |
| Sync.Syncer.RollbackOne | crates/fortis-index/src/sync.rs:114-128 | removes exactly the top block from store, table and published chain together, or nothing; fails only with the device, on a block 288 below the highest tip seen, or on the largest txnum |
| Sync.Syncer.NodeBehind | crates/fortis-index/src/sync.rs:104-113 | says so iff the node's tip is a block of our own chain below our tip |
| Sync.Syncer.Unwind | crates/fortis-index/src/sync.rs:103-129 | leaves a prefix; on a steady node everything removed is off the node's chain and the new tip is on it; waits, changing nothing, iff the node is behind on our chain within the indexed heights; below them keeps nothing; a node error only if a lookup went unanswered, any other failure only as rolling a block back fails |
| Sync.WaitsWhen | crates/fortis-index/src/sync.rs:104-113 | a node behind on our own chain is waited for iff its tip is among the indexed heights |
| Sync.Syncer.Apply | crates/fortis-index/src/sync.rs:131-150 | appends exactly the blocks to store, table and published chain, or nothing; durable with an undo record each and no bulk write left pending, bulk with neither; fails only with the device or past the txnum limit |
| Sync.Syncer.EnterFollow | crates/fortis-index/src/sync.rs:180-189 | the first time, flushes everything pending and changes no row, chain or table; later does nothing |
| Sync.Syncer.PruneUndo | crates/fortis-index/src/sync.rs:244-250 | drops exactly the records below the height, which is at least 288 below the highest tip seen, so undo stays sufficient |
| Sync.Syncer.Drain | crates/fortis-index/src/sync.rs:221-256 | appends exactly the received blocks up to the end, a stop or the first block that does not link, and returns their number; no undo record below the last 288 heights; a block among them enters follow mode and leaves nothing to flush or prune; fails only at an error item or where indexing the blocks taken does |
| Sync.Syncer.CatchUp | crates/fortis-index/src/sync.rs:198-258 | drains what is fetched from the table's tip, or the configured height when it is empty, to the target and returns the number of blocks added; follow mode exactly when caught up or past the reorg depth |
| Sync.Syncer.Step | crates/fortis-index/src/sync.rs:193-260 | one pass against any node: what was kept, which blocks were added, and their number as the result; waits iff the node is merely behind; each other error only for its own cause; a steady node, a complete stream, a device good for the work, txnums to spare and nothing to unwind deeper than 288 make it succeed, and it then ends on the node's chain at the target height; all of it extends the runs made so far |
| Sync.UnwindStopsAtTheFork | crates/fortis-index/src/sync.rs:103-129 | what `Unwind` keeps is exactly the set of blocks also on the node's chain: the fork point |
| Sync.CaughtUpIsTheNode | crates/fortis-index/src/sync.rs:193-260 | an index whose tip is on the node's chain equals the node's chain over the same heights |
| Fetch.StepKeeps | crates/fortis-index/src/fetch.rs:94-197 | every step of every stage keeps the protocol's invariant: order, in-flight heights, window, nothing lost |
| Fetch.DeliversInOrder | crates/fortis-index/src/fetch.rs:162-197 | under every schedule the output is from, from+1, … with at most one error, as the last item; fetched blocks lie within twice the workers of the next |
| Fetch.NeverStuck | crates/fortis-index/src/fetch.rs:110-195 | in every state that satisfies the invariant and has not halted some stage can step |
| Fetch.WaitingMeansReady | crates/fortis-index/src/fetch.rs:134-158 | if every worker waits at the window, the next height is already fetched |
| Fetch.EveryStepDescends | crates/fortis-index/src/fetch.rs:94-197 | every step strictly lowers a potential, so no schedule spins |
| Fetch.RunsAreFinite | crates/fortis-index/src/fetch.rs:60-92 | every run is at most 16 steps per height plus the workers plus 11 long |
| Fetch.CompletesOrFails | crates/fortis-index/src/fetch.rs:60-92 | a run nobody stopped ends with the whole range in order or with the good prefix and one error |
| Fetch.ItemsAreOutcomes | crates/fortis-index/src/fetch.rs:150-158 | what is delivered for a height is how the fetch of that height ended: its block on success, an error if the fetch or its hash lookup failed |
| Fetch.OneOutcome | crates/fortis-index/src/fetch.rs:94-160 | the fetch of a height ends at most once in a run |
| Fetch.CompletesUnlessFailed | crates/fortis-index/src/fetch.rs:60-92 | a run nobody stopped, once quiet, delivered the whole range iff no lookup and no fetch failed in it |
| Fetch.CompleteRun | crates/fortis-index/src/fetch.rs:60-92 | for every range and number of workers there is a run in which nothing fails, and it ends with every thread gone and the whole range delivered |
| Fetch.ChannelsBounded | crates/fortis-index/src/fetch.rs:68-80 | in every state of every run at most 2000 jobs and four items per worker wait in the channels |
| Fetch.QuietIsGone | crates/fortis-index/src/fetch.rs:60-92 | when nothing can step any more every stage has ended, stopped or not, and the consumer has all that was sent |
| Compose.PipelineStreams | crates/fortis-index/src/fetch.rs:60-92 | under every schedule the pipeline's output is a stream the syncer accepts |
| Compose.PipelineCompletes | crates/fortis-index/src/fetch.rs:60-92 | a pipeline that ended by itself with every lookup and fetch a success delivered all the syncer asks of a complete stream |
| Spends.SearchSound | crates/fortis-index/src/spends.rs:162-256 | through any reorganisations between calls, every mined answer is on the current chain and every cached fact was true of a chain the node had |
| Spends.NothingBelowResume | crates/fortis-index/src/spends.rs:181-218 | the height a scan resumes at is not below the funding block and has no spend below it on the current chain |
| Spends.ScanIsLinear | crates/fortis-index/src/spends.rs:226-256 | one budget of scanning gives the linear scan's answer or asks to be called again; the last budget always answers |
| Spends.KnownIsLinear | crates/fortis-index/src/spends.rs:185-199 | an entry that knows a mined spend answers it, and that is the linear answer iff the spend lies in the window |
| Spends.SettlesOnLinear | crates/fortis-index/src/spends.rs:162-256 | from any entry earlier chains left, repeated calls on a fixed chain settle: a known spend at once, a search that can go on on the linear answer after enough budgets whatever the tip's age, the rest on out of range |
| Spends.FetchesEachBlockOnce | crates/fortis-index/src/spends.rs:227-242 | from any such entry, no block is fetched by two calls and none at or below valid progress |
| Spends.FetchesFew | crates/fortis-index/src/spends.rs:211-228 | one call fetches at most 50 blocks, none more than 2016 above the funding block |
| Refusals.RefusalIsExact | crates/fortis-index/src/spends.rs:219-224 | for every entry earlier chains can have left that is of no use on the current one, calls end up linear on every chain with that tip iff the funding block is at most 2016 deep |
| Refusals.RefusedFork | crates/fortis-index/src/spends.rs:219-224 | for every such entry and every deeper funding block, a chain with the spend in the window that is refused for ever |
| Refusals.ExhaustedStillRight | crates/fortis-index/src/spends.rs:203-207 | an exhausted entry is right while the last block of its window is still there |
| Refusals.ExhaustedIsExact | crates/fortis-index/src/spends.rs:203-207 | it is right on every chain that keeps the lowest h blocks iff they include the whole window |
| Refusals.StaleFork | crates/fortis-index/src/spends.rs:203-207 | for every exhausted entry and every shorter common part, a chain where the spend is in the window and the entry denies it |
| Spends.SpentByOnChain | crates/fortis-index/src/spends.rs:259-281 | the node's own answer is returned only with the block and input that hold the spend |
| Spends.SpentByNames | crates/fortis-index/src/spends.rs:259-281 | for a spender the node names: its first input that spends the output, and its block with height iff that is on the main chain; asks again iff the spender is unknown or does not spend it |
| Spends.Spends.Claim | crates/fortis-index/src/spends.rs:145-155 | grants iff nobody searches this output and fewer than the limit search at all |
| Spends.Spends.Remember | crates/fortis-index/src/spends.rs:283-294 | the fact is kept and the cache stays within its cap; when full it gives up exactly the scan progress, or everything if there is none; no other entry is altered |
| Spends.Spends.ScanLoop | crates/fortis-index/src/spends.rs:227-242 | scans to the first spend of the window or the first block the node does not give, recording progress block by block; fetches exactly the heights up to it |
| Spends.Spends.Outspend | crates/fortis-index/src/spends.rs:162-256 | unknown and unspent exactly when the node says so; a named spender is answered as above and remembered; otherwise the specified search with its cache entry and fetches, cut short at an unreadable block, and refused for now without a free slot only if it has to scan |
| Mempool.Build | crates/fortis-index/src/mempool.rs:76-109 | the view indexes exactly the given transactions: its spent set and, per program, its transactions |
| Mempool.ViewsAgree | crates/fortis-index/src/mempool.rs:76-109 | the transactions determine the view, so an incremental one equals a rebuild |
| Mempool.UtxosFor | crates/fortis-index/src/mempool.rs:131-154 | lists once each exactly the pool outputs to the program that no pool transaction spends |
| Mempool.UtxoRows | crates/fortis-index/src/api.rs:402-438 | under any skew no outpoint is listed twice, none spent by the pool is listed, and the rows are exactly the confirmed unspent and the pending not confirmed |
| Mempool.ListingIsNextBlock | crates/fortis-index/src/api.rs:402-438 | for a pool valid on top of the chain, the rows are the program's coins after applying the pool as one more block, in any topological order |
| Mempool.NextCoin | crates/fortis-index/src/mempool.rs:131-158 | a coin survives the pool iff the pool does not spend it and it was confirmed or the pool creates it, never both |
| Tracker.MempoolTracker.Refresh | crates/fortis-index/src/mempool.rs:181-217 | a published view is the build of the snapshot's fetchable transactions; kept rows and empty ones stay disjoint parts of the last snapshot; a failed refresh keeps the old sequence so it is retried |
| Tracker.MempoolTracker.FetchChunk | crates/fortis-index/src/mempool.rs:193-214 | gains exactly the transactions of the chunk that came back |
| Newest.History | crates/fortis-index/src/db.rs:730-744 | walking back from the last key of a program yields its newest txnums, newest first, at most the limit |
| Newest.InNewest | crates/fortis-index/src/db.rs:730-744 | a txnum is among the newest k iff fewer than k are newer |
| Newest.CapLosesNothing | crates/fortis-index/src/api.rs:579-583 | if no kept transaction is left out, the newest k of the per-address newest k are the newest k of all |
| Newest.CapExactWhen | crates/fortis-index/src/api.rs:579-583 | with some left out as pending, that holds iff every txnum a cap cut off is older than k that were kept |
| Newest.CapCanLose | crates/fortis-index/src/api.rs:579-583 | one address and one slot where the result differs |
| Scan.UtxosLargest | crates/fortis-index/src/db.rs:750-787 | an accepted row is listed iff fewer than the cap are above it, and listed plus unlisted conserve both count and value |
| Scan.UtxoRowsCapped | crates/fortis-index/src/api.rs:392-412 | each row of a kept coin has its own value and height, every other row is a pending coin; rows and rest add up, in count and in value, to the live and pending coins once each plus the pending coins among those the cap cuts off; exact iff there are none |
| Scan.CountedTwice | crates/fortis-index/src/api.rs:392-398 | for every cap, coins and a pool for which one coin is counted twice |
| Scan.WithoutPending | crates/fortis-index/src/api.rs:455-467 | removes exactly the txnums whose txid is pending |
| Scan.SortAndCut | crates/fortis-index/src/api.rs:582-583 | the newest k of the given txnums, newest first |
| Scan.ScanPlan | crates/fortis-index/src/api.rs:540-591 | utxos and unlisted are the capped listings of the addresses; confirmed is the newest k of the capped histories less the pending ones, and of the full histories when no kept one is pending; pending is each mempool txid once, first seen first, at most 100; used is exactly the touched addresses |
| Scan.OnceUnlessAliased | crates/fortis-index/src/api.rs:559-566 | across all addresses of a scan each outpoint is listed once iff no program with anything to show is asked for under two addresses |
| Scan.SpelledTwice | crates/fortis-index/src/api.rs:505-513 | two different address strings of one program with a coin: the coin is listed twice |
| Scan.UsedNeedsHistory | crates/fortis-index/src/api.rs:554-558 | `used` means touched by any transaction iff the requested history is not 0 |
| Render.Renderer.Confirmed | crates/fortis-index/src/render.rs:126-170 | whatever consistent rows the cache holds under whatever txnum, each result is the body of the view's own txid with height and time of the only block holding the txnum; succeeds iff every txnum is known and cached or fetchable; writes rows only under their own txnum |
| Render.Renderer.RenderPut | crates/fortis-index/src/db.rs:603-610 | keeps the cache consistent and, for a cap of two or more, within the cap plus whatever the counter missed at open; below the cap the row is added and counted, at it the newest half stays |
| Render.Renderer.TrimRender | crates/fortis-index/src/db.rs:614-642 | past half the cap keeps exactly the newest half, unchanged rows, and an exact counter; with a cap below two, which only its tests set, deletes nothing |
| Render.RowIsCached | crates/fortis-index/src/render.rs:142-150 | a written row is read back for its own txid and never for another |
| Compose.RenderedFromTheChain | crates/fortis-index/src/render.rs:126-170 | what a reader renders from a table and a snapshot paired by tip names the block of the snapshot's chain that holds the transaction, with its time |
| Keys.NumBE | crates/fortis-index/src/keys.rs:14-25 | a number that fits its width is read back from its bytes |
| Keys.BENum | crates/fortis-index/src/keys.rs:14-25 | every byte string of a width is the encoding of the number it spells |
| Keys.LessIsNumeric | crates/fortis-index/src/keys.rs:1-18 | byte order of equal-width keys is numeric order |
| Keys.HistoryOrder | crates/fortis-index/src/keys.rs:32-37 | history keys sort by program, then by txnum |
| Keys.HistoryRoundTrip | crates/fortis-index/src/keys.rs:32-42 | program and txnum are read back from a history key |
| Keys.UtxoRoundTrip | crates/fortis-index/src/keys.rs:45-60 | program and outpoint are read back from a utxo key |
| Keys.ValExact | crates/fortis-index/src/keys.rs:69-86 | decoding a utxo value accepts exactly the encodings and inverts them |
| Keys.RecExact | crates/fortis-index/src/keys.rs:107-128 | decoding a block row accepts exactly the encodings and inverts them |
| Keys.MaxTxnum | crates/fortis-index/src/keys.rs:14-18 | the txnum limit is what five bytes hold |
| Keys.UpperBound | crates/fortis-index/src/db.rs:663-676 | the bounds of a prefix scan admit exactly the keys with that prefix, all-0xff prefixes included |
| UndoCodec.Put | crates/fortis-index/src/db.rs:139-161 | writes header and counted sections in the specified layout |
| UndoCodec.Decode | crates/fortis-index/src/db.rs:163-203 | accepts exactly the encodings and returns the record encoded; says truncated iff no record is a prefix of the bytes, trailing iff one is a proper prefix, with its length |
| UndoCodec.EncodeInjective | crates/fortis-index/src/db.rs:139-203 | no encoding is a proper prefix of another, and equal bytes mean equal records |
| UndoCodec.StoredUndoIsExact | crates/fortis-index/src/db.rs:126-136 | two undo records have the same bytes iff they are the same record |
| Extract.RowsFund | crates/fortis-index/src/extract.rs:55-92 | the rows fund exactly the P2WPKH outputs, each once, under the program in their script |
| Extract.RowsSpend | crates/fortis-index/src/extract.rs:45-92 | the rows spend only what the inputs consume, every consumed P2WPKH output among it, under its own program |
| Extract.Attributed | crates/fortis-index/src/extract.rs:45-51 | a spend of an output paying a program is attributed to that program, with no lookup |
| Extract.IndexIsTheTrueUtxo | crates/fortis-index/src/extract.rs:94-108 | for a consensus-valid raw chain the extracted rows meet what the store relies on, and the indexed coins are exactly the P2WPKH outputs no input consumes |
| Extract.HistoryMissesNothing | crates/fortis-index/src/extract.rs:55-92 | every transaction that pays a program or consumes an output that paid it is in that program's history under its own txid |
| Extract.HistoryIsExact | crates/fortis-index/src/extract.rs:45-92 | a transaction is in a program's history iff one of its outputs carries the script of the program or one of its inputs a two-item witness that hashes to it |
| Extract.P2wpkhScript | crates/fortis-index/src/extract.rs:58-67 | a script is P2WPKH for a program iff it is the bytes 0x00, 0x14 and the program's 20 |
| Compose.ExtractionIsConsensus | crates/fortis-index/src/extract.rs:94-108 | raw chains that obey consensus give extracted blocks the consensus the syncer relies on |
| Limiter.RateLimiter.constructor | crates/fortis-edge/src/limit.rs:36-43 | capacity and rate are at least one burst and one per minute |
| Limiter.RateLimiter.CheckAt | crates/fortis-edge/src/limit.rs:57-82 | answer and new buckets, cleanup included, are those of the specification below |
| Limiter.EvictionUnobservable | crates/fortis-edge/src/limit.rs:61-70 | as long as every call is harmless (a bucket dropped by a cleanup would have refilled by the time its key is called), every answer is that of a limiter that never drops a bucket |
| Limiter.HarmfulIsSeen | crates/fortis-edge/src/limit.rs:61-70 | from any state, a call that is not harmless, made as many times as the capacity, gets answers a limiter that never drops would not give |
| Limiter.EvictionIsExact | crates/fortis-edge/src/limit.rs:61-70 | every call of a sequence is harmless iff no call of it, repeated any number of times at its moment, gets other answers than without eviction |
| Limiter.OrderedIsUnseen | crates/fortis-edge/src/limit.rs:57-82 | calls in time order are all harmless |
| Limiter.EvictionSeenOutOfOrder | crates/fortis-edge/src/limit.rs:61-70 | for every key cap, the 10 000 of the constructor included, calls to a new limiter whose answers show that a bucket was dropped |
| Limiter.AllowedAtMost | crates/fortis-edge/src/limit.rs:72-81 | while every call is harmless, in whatever order they come, a key is allowed at most capacity plus rate times what its own clock moved forward |
| Limiter.RateIsBounded | crates/fortis-edge/src/limit.rs:72-81 | in time order, a key is allowed at most capacity plus rate times T times within T seconds, whatever other keys do |
| Limiter.RefusedIsExact | crates/fortis-edge/src/limit.rs:57-82 | in time order on a new limiter, a call is refused iff since some earlier call of its key one more grant would exceed capacity plus rate times the seconds since |
| Limiter.WaitedLongEnough | crates/fortis-edge/src/limit.rs:72-81 | a key that has waited for one token's time, or has no bucket, is allowed |
| Limiter.SizeIsBounded | crates/fortis-edge/src/limit.rs:66-70 | a call at any time keeps the map within the next cleanup's threshold |
| Limiter.OutOfOrderOvergrants | crates/fortis-edge/src/limit.rs:73-75 | three calls that go back a second and forth are granted twice, as much as the bound over the key's clock allows |
| LnFee.Matches | crates/fortis-edge/src/ln_fee.rs:156-175 | true iff the whole script fits the concatenated template, no more and no less |
| LnFee.LnScript | crates/fortis-edge/src/ln_fee.rs:178-186 | recognises exactly the contract scripts |
| LnFee.LnScriptsAre | crates/fortis-edge/src/ln_fee.rs:55-186 | the contract scripts are exactly the instruction sequences of BOLT 3, with a number of 1 to 5 bytes or one of OP_1 to OP_16 where they have a delay or an expiry |
| LnFee.OneKind | crates/fortis-edge/src/ln_fee.rs:55-153 | the BOLT 3 templates do not overlap: a script is at most one kind of contract |
| LnFee.Ctx.Get | crates/fortis-edge/src/ln_fee.rs:228-239 | answers as the source does while the distinct txids asked for stay within 60, then nothing |
| LnFee.Ctx.CoinQualifies | crates/fortis-edge/src/ln_fee.rs:242-256 | the plain definition's answer when its search fits the fetches left, otherwise no |
| LnFee.IsExempt | crates/fortis-edge/src/ln_fee.rs:201-218 | exempt iff the plain definition says so and the parents and grandparents it asks for are at most 60; never more than 60 fetches |
| LnFee.ExemptIs | crates/fortis-edge/src/ln_fee.rs:6-21 | the plain definition without recursion: 1 to 25 inputs, each a contract spend, a coin of a Lightning or fee-paying transaction, or a coin of one that spends only such coins |
| LnFee.NeedsAre | crates/fortis-edge/src/ln_fee.rs:228-256 | an exempt transaction's check asks for the parents of its other inputs and the parents of those that are not Lightning themselves, each once |

## Left out

- RocksDB itself: atomic batches, snapshots, ordered iteration, the write-ahead log and atomic flush are assumptions; tuning, compaction and secondary mode are not modelled.
- Db.Db.Apply: does not write the `scripthash` family, because those rows are never undone or read back by anything modelled here; `program_at_or_after` and sampling go with them.
- Db.Db.Rollback: does not delete `render` rows, because deleting any part of `render` keeps it consistent, which is all `Render` relies on.
- The loop of `run`: its back-off, progress logging and status fields have no effect on the store, and the flushes it makes when it stops are flush steps, which `Machine` allows at any point of a run.
- Raw block and transaction parsing, address formatting, Esplora JSON shaping, HTTP and RPC: library plumbing; a body is an opaque value determined by its txid.
- Mempool.Build: does not build `outputs` and `by_scripthash`, because only parts left out here read them; nor the order in which `txids_for` lists, so `Scan.ScanPlan` takes the lists as given.
- `Renderer::pending`, the RPC slots and the threads of `fan_out`: results are taken in index order, as the source collects them.
- Concurrent `render_put` and `trim_render` calls: each is modelled alone; interference is covered by assuming nothing of the cache but consistency.
- Machine widths of heights, values and counters: unbounded, except the txnum limit and the encodings in `Keys` and `UndoCodec`.
- The limiter's `f64`: modelled over reals; rounding is not the point of its promises. `Pacer` sleeps and is left out.
- Blocks are taken as extracted rows in `Sync` and as node blocks in `Spends`; a search call sees one state of the node.
- The heap of `Scan.UtxosLargest`: a sequence from which the smallest row is removed; the binary heap's internal order is not modelled.
- Duplicate coinbase txids older than BIP 34: `Extract` takes txids as unique.
