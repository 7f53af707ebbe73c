/** The syncer: unwind what the node no longer has, catch up in bulk batches
    without a write-ahead log, then follow durably block by block. Every pass
    is shown to be a run of `Machine`, so each of its intermediate states has
    the run's properties. */
module Sync {
  import opened Types
  import opened Ledger
  import opened Storage
  import opened Chain
  import opened Machine
  import opened ChainState
  import opened Db

  const BULK_BATCH: nat := 64

  datatype SyncError = Waiting | NodeError | DbFailed(error: DbError)

  /** Consensus over everything the node ever serves: blocks that link up from
      the first indexed height form a valid chain. */
  ghost predicate Consensus(blocks: iset<Block>, start: nat) {
    forall chain: seq<Block> :: Within(chain, blocks) && Links(chain, start) ==> ValidChain(chain)
  }

  /** `ask(i, h)`: the node's answer to the i-th hash lookup, for height `h`. */
  type Answers = (nat, nat) -> Option<BlockHash>

  /** `fetch(from, to)`: what the fetch pipeline delivers for these heights. */
  type Fetcher = (nat, nat) -> seq<Option<Block>>

  /** The node's chain does not change during the pass. */
  ghost predicate Steady(ask: Answers, nodeTip: nat) {
    forall i: nat, h: nat :: h <= nodeTip ==> ask(i, h).Some? && ask(i, h) == ask(0, h)
  }

  ghost predicate OnNode(b: Block, ask: Answers, nodeTip: nat) {
    b.height <= nodeTip && ask(0, b.height) == Some(b.hash)
  }

  /** Nothing at or above index `k` of `chain` is on the node's chain. */
  ghost predicate OffNodeFrom(chain: seq<Block>, k: nat, ask: Answers, nodeTip: nat) {
    forall i :: k <= i < |chain| ==> !OnNode(chain[i], ask, nodeTip)
  }

  /** The node is behind the index on the same chain. */
  ghost predicate MerelyBehind(chain: seq<Block>, start: nat, ask: Answers, nodeTip: nat) {
    && start <= nodeTip < start + |chain| - 1
    && ask(0, nodeTip) == Some(chain[nodeTip - start].hash)
  }

  /** The node answers every lookup up to its tip. */
  ghost predicate Replies(ask: Answers, nodeTip: nat) {
    forall i: nat, h: nat :: h <= nodeTip ==> ask(i, h).Some?
  }

  // ------------------------------------------------------- what failures mean

  /** Between one and the other at most `n` writes and flushes succeeded. */
  predicate Costs(before: nat, after: nat, n: nat) {
    after <= before <= after + n
  }

  /** Rolling back the top block fails because the device does, because its
      record was pruned, or because it holds the largest txnum. */
  ghost predicate RollbackBlame(e: SyncError, chain: seq<Block>, seen: nat, healthy: nat) {
    && e.DbFailed? && chain != []
    && match e.error {
         case Io => healthy == 0
         case NoUndo(h) => h == Last(chain).height < SubDepth(seen)
         case Panicked => TxCount(chain) > MAX_TXNUM
         case _ => false
       }
  }

  /** Indexing `chain` fails because the device does, or because it takes more
      txnums than there are. */
  ghost predicate ApplyBlame(e: SyncError, chain: seq<Block>, healthy: nat) {
    && e.DbFailed?
    && match e.error {
         case Io => healthy == 0
         case Panicked => TxCount(chain) > MAX_TXNUM
         case Exhausted(_) => TxCount(chain) > MAX_TXNUM
         case _ => false
       }
  }

  lemma {:induction false} TooManyTxs(chain: seq<Block>, blocks: seq<Block>)
    requires !Fits(blocks, TxCount(chain))
    ensures TxCount(chain + blocks) > MAX_TXNUM
  {
    var i :| 0 <= i < |blocks| && !FitsAt(blocks, TxCount(chain), i);
    assert blocks == blocks[..i] + [blocks[i]] + blocks[i + 1..];
    TxCountSnoc(blocks[..i], blocks[i]);
    ReplayExtends(blocks[..i] + [blocks[i]], blocks[i + 1..]);
    ReplayExtends(chain, blocks);
  }

  lemma {:induction false} TxCountSnoc(blocks: seq<Block>, b: Block)
    ensures TxCount(blocks + [b]) == TxCount(blocks) + |b.txs|
  {
    assert Init(blocks + [b]) == blocks;
  }

  lemma {:induction false} StuckTop(chain: seq<Block>)
    requires chain != [] && !EndFits(RecOf(Last(chain), TxCount(Init(chain))))
    ensures TxCount(chain) > MAX_TXNUM
  {
  }

  lemma {:induction false} BlameGrows(e: SyncError, chain: seq<Block>, more: seq<Block>, healthy: nat)
    requires ApplyBlame(e, chain, healthy)
    ensures ApplyBlame(e, chain + more, healthy)
  {
    hide TxCount;
    ReplayExtends(chain, more);
  }

  /** What bulk writes leave: no undo record is new below `from`. */
  ghost predicate UndoFrom(was: Store, now: Store, from: nat) {
    forall h :: h in now.undo ==> h in was.undo || h >= from
  }

  ghost predicate Pruned(store: Store, below: nat) {
    forall h :: h in store.undo ==> h >= below
  }

  lemma {:induction false} AppliedUndo(was: Store, now: Store, blocks: seq<Block>, n: TxNum, keepUndo: bool, from: nat)
    requires Applied(was, now, blocks, n, keepUndo)
    requires keepUndo ==> forall i :: 0 <= i < |blocks| ==> blocks[i].height >= from
    ensures UndoFrom(was, now, from)
  {
    hide ApplyBlocks, Undoable, UndoFor;
  }

  ghost predicate Within(chain: seq<Block>, blocks: iset<Block>) {
    forall i :: 0 <= i < |chain| ==> chain[i] in blocks
  }

  class Syncer {
    const db: Db
    /** Where indexing begins when the table is empty. */
    const startHeight: nat
    const stopHeight: Option<nat>
    /** The shared chain. */
    var published: Table
    var bulkDirty: bool
    var follow: bool
    /** Every block the node serves. */
    ghost const served: iset<Block>
    /** The first height of the chain being indexed. */
    ghost var first: nat
    /** The states the machine went through since it began at `first`. */
    ghost var trace: seq<State>
    /** Those before that. */
    ghost var past: seq<State>

    ghost function Now(): State
      reads this
      requires trace != []
    {
      Last(trace)
    }

    ghost predicate Valid()
      reads this, db
    {
      && trace != []
      && db.Valid()
      && Run(trace, first)
      && Now().disk == db.disk
      && Now().bulkDirty == bulkDirty
      && Now().published == published
      && Within(Now().chain, served)
      && Consensus(served, first) && Consensus(served, startHeight)
      && (Now().chain == [] ==> !bulkDirty)
    }

    /** Between commits: what is published is the table of the current chain. */
    ghost predicate Settled()
      reads this, db
    {
      Valid() && IsTable(published, Now().chain)
    }

    /** A restart on a store that indexes `chain`, whatever height it begins at. */
    constructor (db: Db, chain: seq<Block>, table: Table, startHeight: nat, stopHeight: Option<nat>, seen: nat,
                 ghost served: iset<Block>, ghost first: nat)
      requires db.Valid() && db.disk.log == []
      requires Linked(chain, first) && Indexes(db.store, chain, first) && Undoes(db.store, chain, seen)
      requires Loads(db.store.rows, table)
      requires Within(chain, served) && Consensus(served, first) && Consensus(served, startHeight)
      ensures Settled() && this.db == db && this.startHeight == startHeight && this.stopHeight == stopHeight
      ensures this.served == served && this.first == first
      ensures Now().chain == chain && published == table && !bulkDirty && !follow && Now().seen == seen
    {
      this.db, this.startHeight, this.stopHeight, this.served, this.first := db, startHeight, stopHeight, served, first;
      published, bulkDirty, follow := table, false, false;
      ghost var s := State(db.disk, chain, [chain], false, table, chain, seen);
      trace, past := [s], [];
      LoadedTable(db.store, chain, first, table);
      FreshState(s, first);
    }

    /** With nothing left of the old chain, begin at the configured height. */
    ghost method Relocate()
      requires Settled() && Now().chain == []
      modifies this`first, this`trace, this`past
      ensures Settled() && Now() == old(Now()) && first == startHeight
      ensures old(past + trace) <= past + trace
    {
      hide Run, Consensus, Within, Inv, Db.Valid;
      RunOk(trace, first, |trace| - 1);
      EmptyStartsAnywhere(Now(), first, startHeight);
      past := past + trace;
      trace := [Now()];
      first := startHeight;
    }

    /** Take one machine step, already made by the fields. */
    ghost method Record(s: State)
      requires trace != [] && Run(trace, first) && Machine.Step(Now(), s, first)
      modifies this`trace
      ensures trace == old(trace) + [s] && Run(trace, first)
    {
      ExtendRun(trace, s, first);
      trace := trace + [s];
    }

    method Publish(t: BlockTable)
      requires Valid() && IsTable(t.View(), Now().chain)
      modifies this`trace, this`published
      ensures Settled() && old(trace) <= trace
      ensures published == t.View() && Now() == old(Now()).(published := published, publishedChain := old(Now()).chain)
    {
      hide Run, IsTable, Consensus, Within;
      published := t.View();
      ghost var s := Now().(published := published, publishedChain := Now().chain);
      assert Next(Now(), Machine.Publish(published), s, first);
      Record(s);
    }

    /** Flush if there is anything bulk-written since the last flush. */
    method FlushIfDirty() returns (ok: bool)
      requires Valid()
      modifies this`trace, this`bulkDirty, db
      ensures Valid() && old(trace) <= trace && db.store == old(db.store)
      ensures Now().chain == old(Now()).chain && Now().seen == old(Now()).seen && published == old(published)
      ensures ok ==> !bulkDirty
      ensures (!ok ==> db.healthy == 0) && Costs(old(db.healthy), db.healthy, 1)
    {
      hide Run, IsTable, Consensus, Within;
      ok := true;
      if bulkDirty {
        ok := db.Flush();
        if ok {
          bulkDirty := false;
          ghost var s := Now().(disk := db.disk, bulkDirty := false);
          assert Next(Now(), Flush, s, first);
          Record(s);
        }
      }
    }

    /** Commit the rollback of the top block: the machine's step. */
    method CommitRollback(h: nat, rec: BlockRec, newTip: Option<Tip>) returns (r: Result<(), DbError>)
      requires Valid() && !bulkDirty && Now().chain != []
      requires h == Last(Now().chain).height && rec == RecOf(Last(Now().chain), TxCount(Init(Now().chain)))
      requires newTip == TipOf(Init(Now().chain))
      modifies this`trace, db
      ensures Valid() && old(trace) <= trace && Now().seen == old(Now()).seen
      ensures Now().chain == if r.Ok? then Init(old(Now()).chain) else old(Now()).chain
      ensures r.Err? ==> Now() == old(Now()) && RollbackBlame(DbFailed(r.error), Now().chain, Now().seen, db.healthy)
      ensures Costs(old(db.healthy), db.healthy, if r.Ok? then 1 else 0)
    {
      hide Run, Consensus, Within, Linked, Indexes, Undoes, TxCount, RollbackRows, IsTable, TipOf, EndFits;
      ghost var s, chain, store := Now(), Now().chain, db.store;
      NowOk(trace, first);
      r := db.Rollback(h, rec, newTip);
      if h in store.undo {
        RollbackIndexes(store, chain, first);
      } else {
        TopUndoes(store, chain, s.seen);
      }
      if !EndFits(rec) {
        StuckTop(chain);
      }
      if r.Err? {
        return;
      }
      ghost var wb :| LoggedBatch(store, s.disk, db.store, db.disk, true, wb);
      ghost var s' := Append(s, wb, true, Init(chain));
      assert RollbackStep(s, s', wb);
      assert Next(s, Machine.Rollback(wb), s', first);
      WithinInit(chain, served);
      Record(s');
    }

    /** Undo the top block: flush first if bulk writes are pending, commit the
        rollback, then publish. */
    method RollbackOne(t: BlockTable) returns (r: Result<(), SyncError>)
      requires Settled() && IsTable(t.View(), Now().chain) && Now().chain != []
      modifies this`trace, this`bulkDirty, this`published, db, t
      ensures Settled() && IsTable(t.View(), Now().chain) && old(trace) <= trace && Now().seen == old(Now()).seen
      ensures Now().chain == if r.Ok? then Init(old(Now()).chain) else old(Now()).chain
      ensures r.Err? ==> r.error.DbFailed? && RollbackBlame(r.error, Now().chain, Now().seen, db.healthy)
      ensures Costs(old(db.healthy), db.healthy, if r.Ok? then 2 else 1)
    {
      hide Run, Consensus, Within, Linked, Indexes, Undoes, TxCount, Db.Valid, IsTable, TipOf;
      var ok := FlushIfDirty();
      if !ok {
        return Err(DbFailed(Io));
      }
      ghost var chain := Now().chain;
      NowOk(trace, first);
      TopRow(t.View(), chain, first);
      BelowRow(t.View(), chain, first);
      var h, rec := t.start + |t.recs| - 1, Last(t.recs);
      var below := if h == 0 then None else t.Get(h - 1);
      var newTip := if below.None? then None else Some(Tip(h - 1, below.value.hash));
      var result := CommitRollback(h, rec, newTip);
      if result.Err? {
        return Err(DbFailed(result.error));
      }
      PopOk(t.View(), chain);
      var _ := t.Pop();
      Publish(t);
      r := Ok(());
    }

    /** Is the node catching up on our own chain? Asks at most once. */
    method NodeBehind(nodeTip: nat, ask: Answers, t: BlockTable) returns (behind: Result<bool, SyncError>)
      requires Valid() && IsTable(t.View(), Now().chain)
      ensures behind.Err? ==> behind.error == NodeError && !Replies(ask, nodeTip)
      ensures behind.Err? ==> !MerelyBehind(Now().chain, first, ask, nodeTip)
      ensures behind.Ok? ==> (behind.value <==> MerelyBehind(Now().chain, first, ask, nodeTip))
    {
      hide Run, Consensus, Within, Linked, Undoes, TxCount, Db.Valid, IsTable;
      TableRows(t.View(), Now().chain, trace, first);
      var ours := t.Get(nodeTip);
      if ours.Some? && t.start + |t.recs| - 1 > nodeTip {
        var answer := ask(0, nodeTip);
        if answer.None? {
          return Err(NodeError);
        }
        return Ok(answer.value == ours.value.hash);
      }
      behind := Ok(false);
    }

    /** Drop blocks from the top until the node has the tip, or none is left. */
    method Unwind(nodeTip: nat, ask: Answers, t: BlockTable) returns (r: Result<(), SyncError>)
      requires Settled() && IsTable(t.View(), Now().chain)
      modifies this`trace, this`bulkDirty, this`published, db, t
      ensures Settled() && IsTable(t.View(), Now().chain) && old(trace) <= trace && Now().seen == old(Now()).seen
      ensures Now().chain <= old(Now()).chain
      ensures Steady(ask, nodeTip) ==> OffNodeFrom(old(Now()).chain, |Now().chain|, ask, nodeTip)
      ensures Steady(ask, nodeTip) && r.Ok? ==> Now().chain == [] || OnNode(Last(Now().chain), ask, nodeTip)
      ensures nodeTip < first && r.Ok? ==> Now().chain == []
      ensures r == Err(Waiting) ==> Now() == old(Now())
      ensures r == Err(Waiting) <==> MerelyBehind(old(Now()).chain, first, ask, nodeTip)
      ensures r == Err(NodeError) ==> !Replies(ask, nodeTip)
      ensures r.Err? && r.error.DbFailed? ==> RollbackBlame(r.error, Now().chain, Now().seen, db.healthy)
      ensures Costs(old(db.healthy), db.healthy, 2 * (|old(Now()).chain| - |Now().chain|) + 1)
      ensures r.Err? && r.error.DbFailed? && Steady(ask, nodeTip) ==>
                Now().chain != [] && !OnNode(Last(Now().chain), ask, nodeTip)
    {
      hide Run, Consensus, Within, Linked, Undoes, TxCount, Db.Valid, IsTable, MerelyBehind, OffNodeFrom, RollbackBlame;
      ghost var chain := Now().chain;
      var behind := NodeBehind(nodeTip, ask, t);
      if behind.Err? {
        OffNodeNone(chain, ask, nodeTip);
        return Err(behind.error);
      }
      if behind.value {
        OffNodeNone(chain, ask, nodeTip);
        return Err(Waiting);
      }
      var calls := 1;
      OffNodeNone(chain, ask, nodeTip);
      while t.recs != []
        invariant Settled() && IsTable(t.View(), Now().chain) && old(trace) <= trace && Now().seen == old(Now()).seen
        invariant Now().chain <= chain && Costs(old(db.healthy), db.healthy, 2 * (|chain| - |Now().chain|))
        invariant Steady(ask, nodeTip) ==> OffNodeFrom(chain, |Now().chain|, ask, nodeTip)
        decreases |t.recs|
      {
        ghost var now := Now().chain;
        TableRows(t.View(), now, trace, first);
        var h, rec := t.start + |t.recs| - 1, Last(t.recs);
        assert now[|now| - 1].height == h && now[|now| - 1].hash == rec.hash;
        if h <= nodeTip {
          var answer := ask(calls, h);
          calls := calls + 1;
          if answer.None? {
            return Err(NodeError);
          }
          if answer.value == rec.hash {
            return Ok(());
          }
        }
        var result := RollbackOne(t);
        if result.Err? {
          return result;
        }
        OffNodeMore(chain, |now|, ask, nodeTip);
        TableRows(t.View(), Now().chain, trace, first);
      }
      TableRows(t.View(), Now().chain, trace, first);
      r := Ok(());
    }

    /** Commit a batch: the machine's step, before the table follows. */
    method CommitBlocks(next: TxNum, blocks: seq<Block>, d: Durability) returns (r: Result<seq<BlockRec>, DbError>)
      requires Valid() && (d == Durable ==> !bulkDirty)
      requires next == TxCount(Now().chain) && blocks != []
      requires Links(Now().chain + blocks, first) && Within(blocks, served)
      requires d == Bulk ==> forall i :: 0 <= i < |blocks| ==> blocks[i].height < SubDepth(Now().seen)
      modifies this`trace, this`bulkDirty, db
      ensures Valid() && old(trace) <= trace && Now().seen == old(Now()).seen
      ensures Now().chain == if r.Ok? then old(Now()).chain + blocks else old(Now()).chain
      ensures r.Ok? ==> Recorded(r.value, blocks, next)
      ensures r.Ok? ==> Applied(old(db.store), db.store, blocks, next, d == Durable)
      ensures r.Ok? ==> bulkDirty == (old(bulkDirty) || d == Bulk)
      ensures r.Err? ==> ApplyBlame(DbFailed(r.error), old(Now()).chain + blocks, db.healthy)
      ensures r.Err? ==> db.store == old(db.store) && bulkDirty == old(bulkDirty)
      ensures Costs(old(db.healthy), db.healthy, 1)
    {
      hide Run, Linked, Undoes, Applied, TxCount, Consensus, Links, Within, IsTable, Fits, Recorded, Indexes, Inv,
        WriteAll, WriteEntries, Consecutive;
      ghost var s, chain := Now(), Now().chain;
      WithinConcat(chain, blocks, served);
      LinkedConcat(chain, blocks, served, first);
      ConsecutiveTail(chain, blocks, first);
      ghost var store := db.store;
      r := db.Apply(blocks, next, d, d == Durable);
      if r.Err? {
        if !Fits(blocks, next) {
          TooManyTxs(chain, blocks);
        }
        return;
      }
      if d == Bulk {
        bulkDirty := true;
      }
      ghost var wb :| LoggedBatch(store, s.disk, db.store, db.disk, d == Durable, wb);
      ghost var s' := Append(s, wb, d == Durable, chain + blocks).(bulkDirty := s.bulkDirty || d == Bulk);
      CommitIsAStep(s, s', first, blocks, d == Durable, wb);
      Record(s');
    }

    /** Apply a batch and publish: bulk without a log record or undo, durable
        with both and only after pending bulk writes are flushed. */
    method Apply(t: BlockTable, blocks: seq<Block>, d: Durability) returns (r: Result<(), SyncError>)
      requires Settled() && IsTable(t.View(), Now().chain)
      requires Links(Now().chain + blocks, first) && Within(blocks, served)
      requires d == Bulk ==> forall i :: 0 <= i < |blocks| ==> blocks[i].height < SubDepth(Now().seen)
      modifies this`trace, this`bulkDirty, this`published, db, t
      ensures Settled() && IsTable(t.View(), Now().chain) && old(trace) <= trace && Now().seen == old(Now()).seen
      ensures Now().chain == if r.Ok? then old(Now()).chain + blocks else old(Now()).chain
      ensures r.Ok? && blocks != [] ==> bulkDirty == (d == Bulk)
      ensures r.Ok? && blocks != [] ==>
                Applied(old(db.store), db.store, blocks, TxCount(old(Now()).chain), d == Durable)
      ensures blocks == [] ==> r.Ok? && db.store == old(db.store) && bulkDirty == old(bulkDirty)
      ensures r.Err? ==> r.error.DbFailed? && ApplyBlame(r.error, old(Now()).chain + blocks, db.healthy)
      ensures r.Err? ==> db.store == old(db.store)
      ensures Costs(old(db.healthy), db.healthy, if blocks == [] then 0 else if d == Durable then 2 else 1)
    {
      hide Run, Links, Within, Consensus, Recorded, IsTable, TxCount, Db.Valid, Applied;
      if blocks == [] {
        assert Now().chain + blocks == Now().chain;
        return Ok(());
      }
      if d == Durable {
        var ok := FlushIfDirty();
        if !ok {
          return Err(DbFailed(Io));
        }
      }
      ghost var chain := Now().chain;
      NextNumber(t.View(), chain);
      var result := CommitBlocks(t.NextTxnum(), blocks, d);
      if result.Err? {
        return Err(DbFailed(result.error));
      }
      PushAll(t, chain, blocks, result.value, first);
      Publish(t);
      r := Ok(());
    }

    /** The first pass that catches up flushes what bulk mode wrote. */
    method EnterFollow() returns (ok: bool)
      requires Valid()
      modifies this`trace, this`bulkDirty, this`follow, db
      ensures Valid() && old(trace) <= trace && db.store == old(db.store)
      ensures Now().chain == old(Now()).chain && Now().seen == old(Now()).seen && published == old(published)
      ensures follow && (ok && !old(follow) ==> !bulkDirty && db.disk.flushed == |db.disk.log|)
      ensures old(follow) ==> ok && trace == old(trace) && bulkDirty == old(bulkDirty)
      ensures (!ok ==> db.healthy == 0) && Costs(old(db.healthy), db.healthy, 1)
    {
      hide Run, IsTable, Consensus, Within;
      ok := true;
      if follow {
        return;
      }
      follow := true;
      ok := db.Flush();
      if ok {
        bulkDirty := false;
        ghost var s := Now().(disk := db.disk, bulkDirty := false);
        assert Next(Now(), Flush, s, first);
        Record(s);
      }
    }

    method PruneUndo(below: nat) returns (ok: bool)
      requires Valid() && !bulkDirty && below <= SubDepth(Now().seen)
      modifies this`trace, db
      ensures Valid() && old(trace) <= trace
      ensures Now().chain == old(Now()).chain && Now().seen == old(Now()).seen && published == old(published)
      ensures db.store == if ok then old(db.store).(undo := WithoutRange(old(db.store).undo, 0, below))
                          else old(db.store)
      ensures (!ok ==> db.healthy == 0) && Costs(old(db.healthy), db.healthy, 1)
    {
      hide Run, IsTable, Consensus, Within;
      ghost var s, store := Now(), db.store;
      ok := db.PruneUndo(below);
      if ok {
        ghost var wb :| LoggedBatch(store, s.disk, db.store, db.disk, true, wb);
        ghost var s' := Append(s, wb, true, s.chain);
        assert PruneStep(s, s', below, wb);
        assert Next(s, Prune(below, wb), s', first);
        Record(s');
      }
    }

    /** Consume the fetched blocks: bulk batches below `durableFrom`, single
        durable blocks with undo and pruning from there on. `m` blocks were
        taken before the stream ended, `stop` was seen or a block did not link. */
    method Drain(t: BlockTable, rx: seq<Option<Block>>, nodeTip: nat, stopAt: nat)
      returns (r: Result<nat, SyncError>, ghost m: nat)
      requires Settled() && IsTable(t.View(), Now().chain) && nodeTip <= Now().seen
      requires Streams(rx, first + |Now().chain|, nodeTip, served)
      modifies this`trace, this`bulkDirty, this`published, this`follow, db, t
      ensures Settled() && IsTable(t.View(), Now().chain) && old(trace) <= trace && Now().seen == old(Now()).seen
      ensures Advanced(old(Now()).chain, rx, m, Now().chain, first, served)
      ensures r.Ok? ==> r.value == m && Drained(old(Now()).chain, rx, m, stopAt, Now().chain)
      ensures r.Err? ==> StreamBlame(r.error, old(Now()).chain, rx, m, db.healthy)
      ensures Costs(old(db.healthy), db.healthy, 5 * m + 1)
      ensures UndoFrom(old(db.store), db.store, SubDepth(nodeTip))
      ensures r.Ok? ==> (follow <==> old(follow) || Reaches(old(Now()).chain, m, first, nodeTip))
      ensures r.Ok? && Reaches(old(Now()).chain, m, first, nodeTip) ==>
                !bulkDirty && Pruned(db.store, SubDepth(first + |Now().chain| - 1))
    {
      hide Run, Links, Within, Consensus, Recorded, IsTable, TxCount, Db.Valid, Streams, LinksOnto, Blocks, SubDepth,
        ApplyBlame, UndoFrom, Pruned, Applied, TookBlock, Reaches;
      ghost var base := Now().chain;
      DepthGrows(nodeTip, Now().seen);
      var durableFrom := SubDepth(nodeTip);
      var applied, i := 0, 0;
      var bulk: seq<Block> := [];
      m := 0;
      DrainStart(base, trace, first, served, rx);
      UndoSame(db.store, durableFrom);
      UnderwayNone(follow, bulkDirty, base, first, nodeTip, db.store);
      while i < |rx| && i < stopAt
        invariant Settled() && IsTable(t.View(), Now().chain) && old(trace) <= trace && Now().seen == old(Now()).seen
        invariant m == i <= |rx| && Taken(rx, m) && i <= stopAt
        invariant Costs(old(db.healthy), db.healthy, 5 * m) && UndoFrom(old(db.store), db.store, durableFrom)
        invariant Underway(old(follow), follow, bulkDirty, base, bulk, m, first, nodeTip, db.store)
        invariant base <= Now().chain && Now().chain + bulk == base + Blocks(rx, m) && Within(Blocks(rx, m), served)
        invariant Links(Now().chain + bulk, first) && Within(bulk, served)
        invariant forall j :: 0 <= j < |bulk| ==> bulk[j].height < durableFrom
        invariant applied == |Now().chain| - |base|
        decreases |rx| - i
      {
        if rx[i].None? {
          return Err(NodeError), m;
        }
        var b := rx[i].value;
        StreamAt(rx, i, first + |base|, nodeTip, served);
        ghost var chain := Now().chain;
        assert |chain| + |bulk| == |base| + m by { assert |chain + bulk| == |base + Blocks(rx, m)|; }
        ghost var store := db.store;
        var linked, result, bulk' := Offer(t, bulk, b, nodeTip);
        if !linked {
          break;
        }
        UndoThen(old(db.store), store, db.store, durableFrom);
        BlocksMore(rx, m);
        WithinMore(Blocks(rx, m), b, served);
        assert chain + bulk + [b] ==
               base + Blocks(rx, m + 1) by { assert base + Blocks(rx, m) + [b] == base + (Blocks(rx, m) + [b]); }
        if result.Err? {
          return Err(result.error), m + 1;
        }
        UnderwayMore(old(follow), base, bulk, bulk', b, m, first, nodeTip, follow, bulkDirty, result, db.store);
        applied := applied + result.value;
        bulk := bulk';
        i := i + 1;
        m := i;
      }
      ghost var store, n := db.store, TxCount(Now().chain);
      var result := Apply(t, bulk, Bulk);
      BulkUndo(old(db.store), store, db.store, bulk, n, durableFrom);
      if result.Err? {
        return Err(result.error), m;
      }
      r := Ok(applied + |bulk|);
    }

    /** Take `b` if it links onto what is there, else leave everything be. */
    method Offer(t: BlockTable, bulk: seq<Block>, b: Block, nodeTip: nat)
      returns (linked: bool, r: Result<nat, SyncError>, bulk': seq<Block>)
      requires Settled() && IsTable(t.View(), Now().chain) && b.height <= nodeTip <= Now().seen
      requires b.height == first + |Now().chain| + |bulk|
      requires Links(Now().chain + bulk, first) && Within(bulk, served) && b in served
      requires forall i :: 0 <= i < |bulk| ==> bulk[i].height < SubDepth(nodeTip)
      modifies this`trace, this`bulkDirty, this`published, this`follow, db, t
      ensures Settled() && IsTable(t.View(), Now().chain) && old(trace) <= trace && Now().seen == old(Now()).seen
      ensures old(Now()).chain <= Now().chain <= old(Now()).chain + bulk + [b]
      ensures linked <==> LinksOnto(old(Now()).chain + bulk, b)
      ensures linked ==> Links(old(Now()).chain + bulk + [b], first)
      ensures !linked ==> r == Ok(0) && bulk' == bulk && Now() == old(Now())
      ensures !linked ==> db.healthy == old(db.healthy) && db.store == old(db.store) && bulkDirty == old(bulkDirty)
      ensures !linked ==> follow == old(follow)
      ensures linked ==> TookBlock(old(follow), follow, bulkDirty, r, bulk, bulk', b, nodeTip, db.store)
      ensures UndoFrom(old(db.store), db.store, SubDepth(nodeTip)) && Costs(old(db.healthy), db.healthy, 5)
      ensures linked && r.Ok? ==>
                Now().chain + bulk' == old(Now()).chain + bulk + [b] && |Now().chain| == |old(Now()).chain| + r.value
      ensures r.Ok? ==> Within(bulk', served) && forall i :: 0 <= i < |bulk'| ==> bulk'[i].height < SubDepth(nodeTip)
      ensures r.Err? ==> r.error.DbFailed? && ApplyBlame(r.error, old(Now()).chain + bulk + [b], db.healthy)
    {
      hide Run, Links, Within, Consensus, IsTable, TxCount, Db.Valid, LinksOnto, SubDepth, ApplyBlame, TookBlock;
      UndoSame(db.store, SubDepth(nodeTip));
      ghost var chain := Now().chain;
      TableRows(t.View(), chain, trace, first);
      var prev := if bulk != [] then Some(Last(bulk).hash) else if t.recs != [] then Some(Last(t.recs).hash) else None;
      PrevIsTip(chain, bulk, t.View(), b, prev);
      if prev.Some? && prev.value != b.prev {
        return false, Ok(0), bulk;
      }
      LinksMore(chain + bulk, b, first);
      linked := true;
      r, bulk' := Take(t, bulk, b, nodeTip);
    }

    /** One linking block: collected for a bulk batch, or followed durably. */
    method Take(t: BlockTable, bulk: seq<Block>, b: Block, nodeTip: nat)
      returns (r: Result<nat, SyncError>, bulk': seq<Block>)
      requires Settled() && IsTable(t.View(), Now().chain) && b.height <= nodeTip <= Now().seen
      requires Links(Now().chain + bulk + [b], first) && Within(bulk, served) && b in served
      requires forall i :: 0 <= i < |bulk| ==> bulk[i].height < SubDepth(nodeTip)
      modifies this`trace, this`bulkDirty, this`published, this`follow, db, t
      ensures Settled() && IsTable(t.View(), Now().chain) && old(trace) <= trace && Now().seen == old(Now()).seen
      ensures old(Now()).chain <= Now().chain <= old(Now()).chain + bulk + [b]
      ensures r.Ok? ==> Now().chain + bulk' == old(Now()).chain + bulk + [b] &&
                        |Now().chain| == |old(Now()).chain| + r.value
      ensures r.Ok? ==> Within(bulk', served) && forall i :: 0 <= i < |bulk'| ==> bulk'[i].height < SubDepth(nodeTip)
      ensures TookBlock(old(follow), follow, bulkDirty, r, bulk, bulk', b, nodeTip, db.store)
      ensures UndoFrom(old(db.store), db.store, SubDepth(nodeTip)) && Costs(old(db.healthy), db.healthy, 5)
      ensures r.Err? ==> r.error.DbFailed? && ApplyBlame(r.error, old(Now()).chain + bulk + [b], db.healthy)
    {
      hide Run, Links, Within, Consensus, IsTable, Db.Valid, ApplyBlame, Applied, TxCount, UndoFrom, Pruned;
      ghost var store := db.store;
      UndoSame(store, SubDepth(nodeTip));
      WithinMore(bulk, b, served);
      ghost var chain := Now().chain;
      assert chain + (bulk + [b]) == chain + bulk + [b];
      bulk' := [];
      WithinNone(served);
      if b.height < SubDepth(nodeTip) {
        if |bulk| + 1 != BULK_BATCH {
          return Ok(0), bulk + [b];
        }
        var result := Apply(t, bulk + [b], Bulk);
        BulkUndo(store, store, db.store, bulk + [b], TxCount(chain), SubDepth(nodeTip));
        if result.Err? {
          return Err(result.error), bulk';
        }
      } else {
        var result := FollowBlock(t, bulk, b, nodeTip);
        UndoHigher(store, db.store, b.height, SubDepth(nodeTip));
        if result.Err? {
          return Err(result.error), bulk';
        }
      }
      assert Now().chain + bulk' == Now().chain;
      r := Ok(|bulk| + 1);
    }

    /** Apply the pending bulk blocks, enter follow mode, then the durable block. */
    method FollowBlock(t: BlockTable, bulk: seq<Block>, b: Block, nodeTip: nat) returns (r: Result<(), SyncError>)
      requires Settled() && IsTable(t.View(), Now().chain) && b.height <= nodeTip <= Now().seen
      requires Links(Now().chain + bulk + [b], first) && Within(bulk + [b], served)
      requires forall i :: 0 <= i < |bulk| ==> bulk[i].height < SubDepth(nodeTip)
      modifies this`trace, this`bulkDirty, this`published, this`follow, db, t
      ensures Settled() && IsTable(t.View(), Now().chain) && old(trace) <= trace && Now().seen == old(Now()).seen
      ensures old(Now()).chain <= Now().chain <= old(Now()).chain + bulk + [b]
      ensures r.Ok? ==> Now().chain == old(Now()).chain + bulk + [b]
      ensures r.Ok? ==> follow && !bulkDirty && Pruned(db.store, SubDepth(b.height))
      ensures UndoFrom(old(db.store), db.store, b.height) && Costs(old(db.healthy), db.healthy, 5)
      ensures r.Err? ==> r.error.DbFailed? && ApplyBlame(r.error, old(Now()).chain + bulk + [b], db.healthy)
    {
      hide Run, Links, Consensus, IsTable, Db.Valid, Within, SubDepth, ApplyBlame, Applied, TxCount, UndoFrom;
      ghost var store, chain := db.store, Now().chain;
      UndoSame(store, b.height);
      ghost var all := Now().chain + bulk + [b];
      assert all[..|all| - 1] == Now().chain + bulk;
      LinksPrefix(all, |all| - 1, first);
      WithinSplit(bulk, b, served);
      DepthGrows(b.height, Now().seen);
      DepthGrows(nodeTip, Now().seen);
      r := Apply(t, bulk, Bulk);
      BulkUndo(store, store, db.store, bulk, TxCount(chain), b.height);
      if r.Err? {
        BlameGrows(r.error, chain + bulk, [b], db.healthy);
        return;
      }
      ghost var afterBulk := db.store;
      var ok := EnterFollow();
      if !ok {
        DeviceBlame(chain + bulk + [b]);
        return Err(DbFailed(Io));
      }
      r := Apply(t, [b], Durable);
      if r.Err? {
        return;
      }
      AppliedUndo(afterBulk, db.store, [b], TxCount(chain + bulk), true, b.height);
      UndoThen(store, afterBulk, db.store, b.height);
      ghost var afterBlock := db.store;
      ok := PruneUndo(SubDepth(b.height));
      PrunedUndo(store, afterBlock, db.store, SubDepth(b.height), b.height);
      if !ok {
        DeviceBlame(chain + bulk + [b]);
        return Err(DbFailed(Io));
      }
    }

    /** Catch up from the table's tip to the node's, or to `stopHeight`. */
    method CatchUp(t: BlockTable, nodeTip: nat, fetch: Fetcher, stopAt: nat)
      returns (r: Result<nat, SyncError>, ghost m: nat)
      requires Settled() && IsTable(t.View(), Now().chain) && nodeTip <= Now().seen
      requires (Now().chain == [] ==> first == startHeight)
      requires forall from: nat, to: nat :: Streams(fetch(from, to), from, to, served)
      modifies this`trace, this`bulkDirty, this`published, this`follow, db, t
      ensures Settled() && old(trace) <= trace && Now().seen == old(Now()).seen
      ensures Advanced(old(Now()).chain, Received(first + |old(Now()).chain|, stopHeight, nodeTip, fetch), m,
                       Now().chain, first, served)
      ensures r.Ok? ==> r.value == m && Drained(old(Now()).chain,
                                                Received(first + |old(Now()).chain|, stopHeight, nodeTip, fetch),
                                                m, stopAt, Now().chain)
      ensures r.Err? ==> StreamBlame(r.error, old(Now()).chain,
                                     Received(first + |old(Now()).chain|, stopHeight, nodeTip, fetch), m, db.healthy)
      ensures Costs(old(db.healthy), db.healthy, 5 * m + 1)
      ensures UndoFrom(old(db.store), db.store, SubDepth(nodeTip))
      ensures r.Ok? ==> (follow <==> old(follow) || Follows(old(Now()).chain, m, first, stopHeight, nodeTip))
      ensures r.Ok? && follow && !old(follow) ==> !bulkDirty
      ensures r.Ok? && Reaches(old(Now()).chain, m, first, nodeTip) ==>
                Pruned(db.store, SubDepth(first + |Now().chain| - 1))
    {
      hide Run, Links, Within, Consensus, IsTable, Db.Valid, Streams, ApplyBlame, SubDepth, UndoFrom, Pruned, Blocks;
      ghost var base := Now().chain;
      TableRows(t.View(), base, trace, first);
      var from := if t.recs == [] then startHeight else t.start + |t.recs|;
      var to := Target(stopHeight, nodeTip);
      if from > to {
        m := 0;
        NothingReceived(base, trace, first, served, stopAt);
        UndoSame(db.store, SubDepth(nodeTip));
        if from >= SubDepth(nodeTip) {
          var ok := EnterFollow();
          if !ok {
            DeviceBlame(base + Blocks([], 0));
            return Err(DbFailed(Io)), m;
          }
        }
        return Ok(0), m;
      }
      var rx := fetch(from, to);
      StreamsLonger(rx, from, to, nodeTip, served);
      r, m := Drain(t, rx, nodeTip, stopAt);
    }

    /** One pass: note the node's tip, unwind to `kept` blocks, then take `m` more,
        up to the node's tip or `stopHeight`. `fetch(from, to)` is what the fetch
        pipeline delivers. */
    method Step(tip: Option<nat>, ask: Answers, fetch: Fetcher, stopAt: nat)
      returns (r: Result<nat, SyncError>, ghost kept: nat, ghost m: nat)
      requires Settled()
      requires forall from: nat, to: nat :: Streams(fetch(from, to), from, to, served)
      modifies this`first, this`past, this`trace, this`bulkDirty, this`published, this`follow, db
      ensures Settled() && old(past + trace) <= past + trace
      ensures tip.None? ==> r == Err(NodeError) && trace == old(trace) && first == old(first)
      ensures tip.Some? ==> Now().seen == if tip.value > old(Now()).seen then tip.value else old(Now()).seen
      // what was unwound
      ensures kept <= |old(Now()).chain|
      ensures tip.Some? && Steady(ask, tip.value) ==> OffNodeFrom(old(Now()).chain, kept, ask, tip.value)
      ensures r.Ok? && Steady(ask, tip.value) ==> kept == 0 || OnNode(old(Now()).chain[kept - 1], ask, tip.value)
      // what was added
      ensures r.Ok? ==> first == if kept == 0 then startHeight else old(first)
      ensures r.Ok? ==> r.value == m == |Now().chain| - kept
      ensures r.Ok? ==> Drained(old(Now()).chain[..kept], Received(first + kept, stopHeight, tip.value, fetch), m,
                                stopAt, Now().chain)
      ensures r.Ok? ==>
                (follow <==> old(follow) || Follows(old(Now()).chain[..kept], m, first, stopHeight, tip.value))
      ensures r.Ok? && Reaches(old(Now()).chain[..kept], m, first, tip.value) ==>
                Pruned(db.store, SubDepth(first + |Now().chain| - 1))
      ensures r.Ok? && Steady(ask, tip.value) && Complete(fetch, ask, tip.value) &&
              (forall from: nat, to: nat :: |fetch(from, to)| <= stopAt) ==>
                CaughtUp(Now().chain, first, stopHeight, ask, tip.value)
      // what went wrong
      ensures r == Err(Waiting) <==> tip.Some? && MerelyBehind(old(Now()).chain, old(first), ask, tip.value)
      ensures r == Err(Waiting) ==> Now().chain == old(Now()).chain
      ensures r.Err? && tip.Some? && !r.error.Waiting? ==>
                PassBlame(r.error, old(Now()).chain[..kept], Received(first + kept, stopHeight, tip.value, fetch), m,
                          ask, tip.value, Now(), db.healthy)
      ensures tip.Some? && Roomy(served, old(first)) && Roomy(served, startHeight) ==>
                Smooth(old(Now()).chain, old(first), old(Now()).seen, old(db.healthy), tip.value, ask, fetch) ==> r.Ok?
    {
      hide Run, Links, Within, Consensus, IsTable, Db.Valid, Streams, Steady, Complete, OnNode, OffNodeFrom,
        MerelyBehind, CaughtUp, RollbackBlame, StreamBlame, Smooth, Roomy, Drained, Follows, Advanced, Replies,
        Received, Pruned, Reaches, UndoFrom;
      kept, m := 0, 0;
      if tip.None? {
        return Err(NodeError), kept, m;
      }
      var nodeTip := tip.value;
      NoteTip(nodeTip);
      var t := new BlockTable(published);
      var unwound := Unwind(nodeTip, ask, t);
      LongerTrace(past, old(trace), trace);
      ghost var base := Now().chain;
      kept := |base|;
      assert base == old(Now()).chain[..kept];
      if unwound.Err? {
        UnwindSucceeds(unwound.error, old(Now()), old(db.healthy), nodeTip, ask, fetch, trace, db.healthy, first,
                       served);
        return Err(unwound.error), kept, m;
      }
      TableRows(t.View(), base, trace, first);
      if t.recs == [] {
        Relocate();
      }
      ghost var states, left := trace, db.healthy;
      r, m := CatchUp(t, nodeTip, fetch, stopAt);
      LongerTrace(past, states, trace);
      if r.Ok? {
        PassEnds(fetch, ask, nodeTip, stopAt, base, m, first, stopHeight, Now().chain);
      } else {
        PassSucceeds(r.error, old(Now()), old(first), old(db.healthy), nodeTip, ask, fetch, base, m, Now().chain, left,
                     db.healthy, first, stopHeight, served);
      }
    }

    method NoteTip(nodeTip: nat)
      requires Settled()
      modifies this`trace
      ensures Settled() && old(trace) <= trace
      ensures Now() == old(Now()).(seen := if nodeTip > old(Now()).seen then nodeTip else old(Now()).seen)
    {
      hide Run, IsTable, Consensus, Within;
      ghost var s := Now().(seen := if nodeTip > Now().seen then nodeTip else Now().seen);
      assert Next(Now(), SeeTip(nodeTip), s, first);
      Record(s);
    }
  }

  /** Where the next pass reads to. */
  function Target(stopHeight: Option<nat>, nodeTip: nat): nat {
    if stopHeight.Some? && stopHeight.value < nodeTip then stopHeight.value else nodeTip
  }

  /** The first `m` items of the stream were taken, and no more because it
      ended, `stop` was seen or the next block does not link. */
  ghost predicate Drained(base: seq<Block>, rx: seq<Option<Block>>, m: nat, stopAt: nat, chain: seq<Block>) {
    && m <= |rx| && m <= stopAt && Taken(rx, m) && chain == base + Blocks(rx, m)
    && (m == |rx| || m == stopAt || (rx[m].Some? && !LinksOnto(chain, rx[m].value)))
  }

  /** `chain` is `base` and some of the `m` blocks the stream begins with, which
      link up. */
  ghost predicate Advanced(base: seq<Block>, rx: seq<Option<Block>>, m: nat, chain: seq<Block>, first: nat,
                           served: iset<Block>) {
    && m <= |rx| && Taken(rx, m) && base <= chain <= base + Blocks(rx, m)
    && Links(base + Blocks(rx, m), first) && Within(Blocks(rx, m), served)
  }

  /** What the pass is given to index after height `from - 1`. */
  ghost function Received(from: nat, stopHeight: Option<nat>, nodeTip: nat, fetch: Fetcher): seq<Option<Block>> {
    if from > Target(stopHeight, nodeTip) then [] else fetch(from, Target(stopHeight, nodeTip))
  }

  /** The pass finds the index caught up, or takes a block that may still be
      reorganised. */
  ghost predicate Follows(base: seq<Block>, m: nat, first: nat, stopHeight: Option<nat>, nodeTip: nat) {
    if first + |base| > Target(stopHeight, nodeTip) then first + |base| >= SubDepth(nodeTip)
    else Reaches(base, m, first, nodeTip)
  }

  /** A pass fails because the node did not answer, because unwinding could not
      take the top block back, or because indexing the blocks received failed. */
  ghost predicate PassBlame(e: SyncError, base: seq<Block>, rx: seq<Option<Block>>, m: nat, ask: Answers, nodeTip: nat,
                            now: State, healthy: nat) {
    || (e == NodeError && !Replies(ask, nodeTip))
    || (RollbackBlame(e, now.chain, now.seen, healthy) && now.chain == base)
    || (m <= |rx| && Taken(rx, m) && StreamBlame(e, base, rx, m, healthy))
  }

  /** No chain of these blocks takes more txnums than there are. */
  ghost predicate Roomy(blocks: iset<Block>, start: nat) {
    forall chain: seq<Block> :: Within(chain, blocks) && Links(chain, start) ==> TxCount(chain) <= MAX_TXNUM
  }

  /** A node that holds still and is not merely behind, a complete stream, a
      device good for the work, and nothing to unwind deeper than 288 blocks. */
  ghost predicate Smooth(chain: seq<Block>, first: nat, seen: nat, healthy: nat, nodeTip: nat, ask: Answers,
                         fetch: Fetcher) {
    && Steady(ask, nodeTip) && Complete(fetch, ask, nodeTip) && !MerelyBehind(chain, first, ask, nodeTip)
    && healthy > 2 * |chain| + 5 * (nodeTip + 1) + 2
    && (forall i :: 0 <= i < |chain| && !OnNode(chain[i], ask, nodeTip) ==>
                      chain[i].height >= SubDepth(nodeTip) && chain[i].height >= SubDepth(seen))
  }

  /** Of the `m` blocks taken the last is one that may still be reorganised. */
  ghost predicate Reaches(base: seq<Block>, m: nat, first: nat, nodeTip: nat) {
    m > 0 && first + |base| + m - 1 >= SubDepth(nodeTip)
  }

  /** Draining fails at an error item, or where indexing the blocks taken does. */
  ghost predicate StreamBlame(e: SyncError, base: seq<Block>, rx: seq<Option<Block>>, m: nat, healthy: nat)
    requires m <= |rx| && Taken(rx, m)
  {
    if e.NodeError? then m < |rx| && rx[m].None? else ApplyBlame(e, base + Blocks(rx, m), healthy)
  }

  /** A block that may still be reorganised is indexed at once, in follow mode,
      with everything before it flushed and old records pruned; others wait until
      there are 64 of them. */
  ghost predicate TookBlock(followed: bool, follow: bool, dirty: bool, r: Result<nat, SyncError>, was: seq<Block>,
                            bulk: seq<Block>, b: Block, nodeTip: nat, store: Store) {
    r.Ok? ==>
      && follow == (followed || b.height >= SubDepth(nodeTip))
      && (b.height >= SubDepth(nodeTip) ==> bulk == [] && !dirty && Pruned(store, SubDepth(b.height)))
      && (b.height < SubDepth(nodeTip) ==> bulk == if |was| + 1 == 64 then [] else was + [b])
  }

  /** `m` blocks into the stream: `bulk` waits, and what follow mode promises holds
      as soon as a block that may still be reorganised was taken. */
  ghost predicate Underway(followed: bool, follow: bool, dirty: bool, base: seq<Block>, bulk: seq<Block>, m: nat,
                           first: nat, nodeTip: nat, store: Store) {
    && |bulk| < 64
    && (follow <==> followed || Reaches(base, m, first, nodeTip))
    && (Reaches(base, m, first, nodeTip) ==> bulk == [] && !dirty && Pruned(store, SubDepth(first + |base| + m - 1)))
  }

  lemma {:induction false} UnderwayNone(follow: bool, dirty: bool, base: seq<Block>, first: nat, nodeTip: nat,
                                        store: Store)
    ensures Underway(follow, follow, dirty, base, [], 0, first, nodeTip, store)
  {
  }

  lemma {:induction false} UnderwayMore(followed: bool, base: seq<Block>, was: seq<Block>, bulk: seq<Block>, b: Block,
                                        m: nat, first: nat, nodeTip: nat, follow: bool, dirty: bool,
                                        r: Result<nat, SyncError>, store: Store)
    requires |was| < 64 && b.height == first + |base| + m
    requires TookBlock(followed || Reaches(base, m, first, nodeTip), follow, dirty, r, was, bulk, b, nodeTip, store)
    requires r.Ok?
    ensures Underway(followed, follow, dirty, base, bulk, m + 1, first, nodeTip, store)
  {
    hide SubDepth, Pruned;
  }

  lemma {:induction false} DeviceBlame(chain: seq<Block>)
    ensures ApplyBlame(DbFailed(Io), chain, 0)
  {
  }

  lemma {:induction false} UndoSame(s: Store, from: nat)
    ensures UndoFrom(s, s, from)
  {
  }

  lemma {:induction false} UndoThen(a: Store, b: Store, c: Store, from: nat)
    requires UndoFrom(a, b, from) && UndoFrom(b, c, from)
    ensures UndoFrom(a, c, from)
  {
  }

  lemma {:induction false} UndoHigher(a: Store, b: Store, from: nat, lower: nat)
    requires UndoFrom(a, b, from) && lower <= from
    ensures UndoFrom(a, b, lower)
  {
  }

  lemma {:induction false} BulkUndo(a: Store, b: Store, c: Store, blocks: seq<Block>, n: nat, from: nat)
    requires UndoFrom(a, b, from)
    requires b == c || Applied(b, c, blocks, n, false)
    ensures UndoFrom(a, c, from)
  {
    hide ApplyBlocks;
  }

  lemma {:induction false} PrunedUndo(a: Store, b: Store, c: Store, below: nat, from: nat)
    requires UndoFrom(a, b, from) && (c == b || c == b.(undo := WithoutRange(b.undo, 0, below)))
    ensures UndoFrom(a, c, from)
    ensures c == b.(undo := WithoutRange(b.undo, 0, below)) ==> Pruned(c, below)
  {
  }

  /** On the node's chain, and past the height the pass was to reach. */
  ghost predicate CaughtUp(chain: seq<Block>, first: nat, stopHeight: Option<nat>, ask: Answers, nodeTip: nat) {
    && (chain == [] || OnNode(Last(chain), ask, nodeTip))
    && first + |chain| > Target(stopHeight, nodeTip)
  }

  lemma {:induction false} CommitIsAStep(s: State, s': State, start: nat, blocks: seq<Block>, durable: bool,
                                         wb: seq<Op>)
    requires CommitStep(s, s', start, blocks, durable, wb)
    ensures Machine.Step(s, s', start)
  {
    hide CommitStep;
    assert Next(s, Machine.Commit(blocks, durable, wb), s', start);
  }

  lemma {:induction false} LongerTrace(past: seq<State>, a: seq<State>, b: seq<State>)
    requires a <= b
    ensures past + a <= past + b
  {
  }

  /** What the fetch pipeline promises: consecutive served blocks from `from`,
      no higher than `to`, an error only as an item of its own. */
  ghost predicate Streams(rx: seq<Option<Block>>, from: nat, to: nat, served: iset<Block>) {
    forall i :: 0 <= i < |rx| && rx[i].Some? ==>
                  rx[i].value.height == from + i && from + i <= to && rx[i].value in served
  }

  ghost predicate Taken(rx: seq<Option<Block>>, m: nat)
    requires m <= |rx|
  {
    forall i :: 0 <= i < m ==> rx[i].Some?
  }

  ghost function Blocks(rx: seq<Option<Block>>, m: nat): (bs: seq<Block>)
    requires m <= |rx| && Taken(rx, m)
    ensures |bs| == m && forall i :: 0 <= i < m ==> bs[i] == rx[i].value
  {
    seq(m, i requires 0 <= i < m => rx[i].value)
  }

  ghost predicate LinksOnto(chain: seq<Block>, b: Block) {
    chain == [] || Last(chain).hash == b.prev
  }

  /** The pipeline delivers the whole range, and it is the node's chain. */
  ghost predicate Complete(fetch: Fetcher, ask: Answers, nodeTip: nat) {
    forall from: nat, to: nat :: from <= to <= nodeTip ==> IsRange(fetch(from, to), from, to, ask, nodeTip)
  }

  ghost predicate IsRange(rx: seq<Option<Block>>, from: nat, to: nat, ask: Answers, nodeTip: nat) {
    && from <= to && |rx| == to - from + 1
    && (forall i :: 0 <= i < |rx| ==>
                      rx[i].Some? && OnNode(rx[i].value, ask, nodeTip) && rx[i].value.height == from + i)
    && (forall i :: 0 <= i < |rx| && from + i > 0 ==> ask(0, from + i - 1) == Some(rx[i].value.prev))
  }

  lemma {:induction false} CompleteDrain(fetch: Fetcher, ask: Answers, nodeTip: nat, from: nat,
                                         to: nat, base: seq<Block>, m: nat, start: nat)
    requires Complete(fetch, ask, nodeTip) && from <= to <= nodeTip
    requires base == [] || (OnNode(Last(base), ask, nodeTip) && Last(base).height == from - 1)
    requires from == start + |base|
    requires var rx := fetch(from, to);
             && m <= |rx| && Taken(rx, m)
             && (m == |rx| || (rx[m].Some? && !LinksOnto(base + Blocks(rx, m), rx[m].value)))
    ensures var all := base + Blocks(fetch(from, to), m);
            start + |all| > to && (all == [] || OnNode(Last(all), ask, nodeTip))
  {
    hide Blocks, IsRange;
    assert IsRange(fetch(from, to), from, to, ask, nodeTip);
    hide Complete;
    RangeDrain(fetch(from, to), ask, nodeTip, from, to, base, m, start);
  }

  /** Unwinding does not fail when nothing stands in the way. */
  lemma {:induction false} UnwindSucceeds(e: SyncError, s: State, healthy: nat, nodeTip: nat, ask: Answers,
                                          fetch: Fetcher, run: seq<State>, healthy': nat, first: nat,
                                          served: iset<Block>)
    requires run != [] && Run(run, first) && Within(Last(run).chain, served)
    requires Last(run).chain <= s.chain && Last(run).seen == if nodeTip > s.seen then nodeTip else s.seen
    requires Costs(healthy, healthy', 2 * (|s.chain| - |Last(run).chain|) + 1)
    requires e == Waiting ==> MerelyBehind(s.chain, first, ask, nodeTip)
    requires e == NodeError ==> !Replies(ask, nodeTip)
    requires e.DbFailed? ==> RollbackBlame(e, Last(run).chain, Last(run).seen, healthy')
    requires e.DbFailed? && Steady(ask, nodeTip) ==> !OnNode(Last(Last(run).chain), ask, nodeTip)
    ensures !Smooth(s.chain, first, s.seen, healthy, nodeTip, ask, fetch) || !Roomy(served, first)
  {
    hide Run, Complete, OnNode, MerelyBehind, TxCount, Within, Links, ValidChain, Indexes, Undoes;
    NowOk(run, first);
    var chain := Last(run).chain;
    assert chain != [] ==> Last(chain) == s.chain[|chain| - 1];
  }

  /** Nor does what follows it. */
  lemma {:induction false} PassSucceeds(e: SyncError, s: State, began: nat, healthy: nat, nodeTip: nat, ask: Answers,
                                        fetch: Fetcher, base: seq<Block>, m: nat, chain: seq<Block>, left: nat,
                                        healthy': nat, first: nat, stopHeight: Option<nat>, served: iset<Block>)
    requires base <= s.chain && Within(base, served)
    requires var rx := Received(first + |base|, stopHeight, nodeTip, fetch);
             Advanced(base, rx, m, chain, first, served) && StreamBlame(e, base, rx, m, healthy')
    requires Costs(healthy, left, 2 * (|s.chain| - |base|) + 1) && Costs(left, healthy', 5 * m + 1)
    ensures !Smooth(s.chain, began, s.seen, healthy, nodeTip, ask, fetch) || !Roomy(served, first)
    ensures e != Waiting
    ensures var rx := Received(first + |base|, stopHeight, nodeTip, fetch); m <= |rx| && Taken(rx, m)
  {
    hide Steady, OnNode, MerelyBehind, TxCount, Within, Links, Blocks, IsRange;
    var rx := Received(first + |base|, stopHeight, nodeTip, fetch);
    WithinConcat(base, Blocks(rx, m), served);
    if Complete(fetch, ask, nodeTip) {
      ReceivedWhole(first + |base|, stopHeight, nodeTip, fetch, ask);
    }
  }

  lemma {:induction false} ReceivedWhole(from: nat, stopHeight: Option<nat>, nodeTip: nat, fetch: Fetcher, ask: Answers)
    requires Complete(fetch, ask, nodeTip)
    ensures var rx := Received(from, stopHeight, nodeTip, fetch); Taken(rx, |rx|) && |rx| <= nodeTip + 1
  {
    hide OnNode;
    if from <= Target(stopHeight, nodeTip) {
      assert IsRange(fetch(from, Target(stopHeight, nodeTip)), from, Target(stopHeight, nodeTip), ask, nodeTip);
    }
  }

  lemma {:induction false} NothingReceived(base: seq<Block>, run: seq<State>, start: nat, served: iset<Block>,
                                           stopAt: nat)
    requires Run(run, start) && Last(run).chain == base
    ensures Advanced(base, [], 0, base, start, served) && Drained(base, [], 0, stopAt, base)
  {
    hide Run, Links;
    DrainStart(base, run, start, served, []);
  }

  /** A complete pass on a steady node ends caught up. */
  lemma {:induction false} PassEnds(fetch: Fetcher, ask: Answers, nodeTip: nat, stopAt: nat, base: seq<Block>, m: nat,
                                    first: nat, stopHeight: Option<nat>, chain: seq<Block>)
    requires Drained(base, Received(first + |base|, stopHeight, nodeTip, fetch), m, stopAt, chain)
    requires base != [] ==> Last(base).height == first + |base| - 1
    ensures (base == [] || OnNode(Last(base), ask, nodeTip)) && Complete(fetch, ask, nodeTip) &&
            (forall from: nat, to: nat :: |fetch(from, to)| <= stopAt) ==>
              CaughtUp(chain, first, stopHeight, ask, nodeTip)
    ensures m == |chain| - |base|
  {
    hide OnNode, Complete, LinksOnto;
    var from, to := first + |base|, Target(stopHeight, nodeTip);
    if from > to {
      assert chain == base;
    } else if Complete(fetch, ask, nodeTip) && |fetch(from, to)| <= stopAt &&
              (base == [] || OnNode(Last(base), ask, nodeTip)) {
      CompleteDrain(fetch, ask, nodeTip, from, to, base, m, first);
    }
  }

  lemma {:induction false} RangeDrain(rx: seq<Option<Block>>, ask: Answers, nodeTip: nat, from: nat, to: nat,
                                      base: seq<Block>, m: nat, start: nat)
    requires IsRange(rx, from, to, ask, nodeTip) && from == start + |base|
    requires base == [] || (OnNode(Last(base), ask, nodeTip) && Last(base).height == from - 1)
    requires m <= |rx| && Taken(rx, m) && (m == |rx| || (rx[m].Some? && !LinksOnto(base + Blocks(rx, m), rx[m].value)))
    ensures var all := base + Blocks(rx, m); start + |all| > to && (all == [] || OnNode(Last(all), ask, nodeTip))
  {
    hide Blocks;
    var all := base + Blocks(rx, m);
    assert m > 0 ==> Last(all) == rx[m - 1].value;
    assert m == 0 ==> all == base;
    assert m == |rx|;
  }

  lemma {:induction false} DrainStart(base: seq<Block>, run: seq<State>, start: nat, served: iset<Block>,
                                      rx: seq<Option<Block>>)
    requires Run(run, start) && Last(run).chain == base
    ensures Links(base + [], start) && Within([], served) && base + [] == base + Blocks(rx, 0)
    ensures Within(Blocks(rx, 0), served)
  {
    hide Run, Indexes, Undoes;
    NowOk(run, start);
    assert base + [] == base;
  }

  lemma {:induction false} StreamAt(rx: seq<Option<Block>>, i: nat, from: nat, to: nat, served: iset<Block>)
    requires Streams(rx, from, to, served) && i < |rx| && rx[i].Some?
    ensures rx[i].value.height == from + i && rx[i].value.height <= to && rx[i].value in served
  {
  }

  lemma {:induction false} StreamsLonger(rx: seq<Option<Block>>, from: nat, to: nat, nodeTip: nat, served: iset<Block>)
    requires Streams(rx, from, to, served) && to <= nodeTip
    ensures Streams(rx, from, nodeTip, served)
  {
  }

  lemma {:induction false} PrevIsTip(chain: seq<Block>, bulk: seq<Block>, t: Table, b: Block, prev: Option<BlockHash>)
    requires |t.recs| == |chain| && (chain != [] ==> Last(t.recs).hash == Last(chain).hash)
    requires prev == if bulk != [] then Some(Last(bulk).hash) else if t.recs != [] then Some(Last(t.recs).hash)
                     else None
    ensures LinksOnto(chain + bulk, b) <==> prev.None? || prev.value == b.prev
  {
    if bulk == [] {
      assert chain + bulk == chain;
    }
  }

  lemma {:induction false} LinksMore(chain: seq<Block>, b: Block, start: nat)
    requires Links(chain, start) && LinksOnto(chain, b) && b.height == start + |chain|
    ensures Links(chain + [b], start)
  {
  }

  lemma {:induction false} BlocksMore(rx: seq<Option<Block>>, m: nat)
    requires m < |rx| && Taken(rx, m) && rx[m].Some?
    ensures Taken(rx, m + 1) && Blocks(rx, m + 1) == Blocks(rx, m) + [rx[m].value]
  {
  }

  lemma {:induction false} OffNodeNone(chain: seq<Block>, ask: Answers, nodeTip: nat)
    ensures OffNodeFrom(chain, |chain|, ask, nodeTip)
  {
  }

  lemma {:induction false} OffNodeMore(chain: seq<Block>, k: nat, ask: Answers, nodeTip: nat)
    requires 0 < k <= |chain|
    ensures OffNodeFrom(chain, k, ask, nodeTip) && !OnNode(chain[k - 1], ask, nodeTip) ==>
              OffNodeFrom(chain, k - 1, ask, nodeTip)
  {
  }

  lemma {:induction false} TableShape(t: Table, chain: seq<Block>, start: nat)
    requires IsTable(t, chain) && Links(chain, start)
    ensures |t.recs| == |chain| && (chain != [] ==> t.start == start)
  {
  }

  lemma {:induction false} PushOk(t: Table, chain: seq<Block>, b: Block)
    requires IsTable(t, chain)
    ensures IsTable(Table(if t.recs == [] then b.height else t.start, t.recs + [RecOf(b, TxCount(chain))]), chain + [b])
  {
    hide TxCount;
    TableSnoc(chain, b);
  }

  lemma {:induction false} LinksPrefix(all: seq<Block>, k: nat, start: nat)
    requires Links(all, start) && k <= |all|
    ensures Links(all[..k], start)
  {
  }

  /** Append the applied rows to the table. */
  method PushAll(t: BlockTable, ghost chain: seq<Block>, blocks: seq<Block>, recs: seq<BlockRec>, ghost start: nat)
    requires IsTable(t.View(), chain) && Links(chain + blocks, start)
    requires Recorded(recs, blocks, TxCount(chain))
    modifies t
    ensures IsTable(t.View(), chain + blocks)
  {
    hide TxCount, IsTable, Links;
    ghost var all := chain + blocks;
    assert all[..|chain|] == chain;
    for i := 0 to |blocks|
      invariant IsTable(t.View(), all[..|chain| + i])
    {
      ghost var upTo := all[..|chain| + i];
      assert upTo == chain + blocks[..i];
      LinksPrefix(all, |chain| + i, start);
      TableShape(t.View(), upTo, start);
      HeightAt(all, |chain| + i, start);
      PushOk(t.View(), upTo, blocks[i]);
      ReplayExtends(chain, blocks[..i]);
      assert all[..|chain| + i + 1] == upTo + [blocks[i]];
      t.Push(blocks[i].height, recs[i]);
    }
    assert all[..|chain| + |blocks|] == all;
  }

  lemma {:induction false} HeightAt(all: seq<Block>, i: nat, start: nat)
    requires Links(all, start) && i < |all|
    ensures all[i].height == start + i
  {
  }

  lemma {:induction false} TableRows(t: Table, chain: seq<Block>, run: seq<State>, start: nat)
    requires Run(run, start) && Last(run).chain == chain && IsTable(t, chain)
    ensures |t.recs| == |chain| && (chain != [] ==> t.start == start)
    ensures forall i :: 0 <= i < |chain| ==> chain[i].height == start + i && t.recs[i].hash == chain[i].hash
  {
    hide Run, ValidChain, TxCount, Indexes, Undoes;
    NowOk(run, start);
  }

  lemma {:induction false} NextNumber(t: Table, chain: seq<Block>)
    requires IsTable(t, chain)
    ensures (if t.recs == [] then 0 else Last(t.recs).firstTxnum + Last(t.recs).nTxs) == TxCount(chain)
  {
    TableNumbered(chain);
  }

  lemma {:induction false} WithinConcat(a: seq<Block>, b: seq<Block>, blocks: iset<Block>)
    requires Within(a, blocks) && Within(b, blocks)
    ensures Within(a + b, blocks)
  {
  }

  lemma {:induction false} WithinNone(blocks: iset<Block>)
    ensures Within([], blocks)
  {
  }

  lemma {:induction false} WithinSplit(a: seq<Block>, b: Block, blocks: iset<Block>)
    requires Within(a + [b], blocks)
    ensures Within(a, blocks) && Within([b], blocks)
  {
    assert forall i :: 0 <= i < |a| ==> a[i] == (a + [b])[i];
    assert (a + [b])[|a|] == b;
  }

  lemma {:induction false} DepthGrows(a: nat, b: nat)
    requires a <= b
    ensures SubDepth(a) <= SubDepth(b)
  {
  }

  lemma {:induction false} WithinMore(a: seq<Block>, b: Block, blocks: iset<Block>)
    requires Within(a, blocks) && b in blocks
    ensures Within(a + [b], blocks)
  {
  }

  lemma {:induction false} LinkedConcat(chain: seq<Block>, blocks: seq<Block>, served: iset<Block>, start: nat)
    requires Within(chain + blocks, served) && Links(chain + blocks, start) && Consensus(served, start)
    ensures Linked(chain + blocks, start)
  {
    hide ValidChain;
    var all := chain + blocks;
    assert forall i :: 0 <= i < |all| ==> all[i] in served;
  }

  lemma {:induction false} ConsecutiveTail(chain: seq<Block>, blocks: seq<Block>, start: nat)
    requires Links(chain + blocks, start)
    ensures Consecutive(blocks)
  {
    forall i | 0 <= i < |blocks|
      ensures blocks[i].height == blocks[0].height + i
    {
      assert blocks[i] == (chain + blocks)[|chain| + i];
      assert blocks[0] == (chain + blocks)[|chain|];
    }
  }

  lemma {:induction false} NowOk(run: seq<State>, start: nat)
    requires Run(run, start)
    ensures Linked(Last(run).chain, start) && Indexes(Visible(Last(run).disk), Last(run).chain, start)
    ensures Undoes(Visible(Last(run).disk), Last(run).chain, Last(run).seen)
  {
    hide Inv, Linked, Indexes, Undoes;
    RunOk(run, start, |run| - 1);
    VisibleOk(Last(run), start);
  }

  lemma {:induction false} TopRow(t: Table, chain: seq<Block>, start: nat)
    requires chain != [] && Linked(chain, start) && IsTable(t, chain)
    ensures |t.recs| == |chain| && t.start == start && Last(chain).height == start + |chain| - 1
    ensures Last(t.recs) == RecOf(Last(chain), TxCount(Init(chain)))
  {
    hide ValidChain, TxCount;
    assert chain[..|chain| - 1] == Init(chain);
  }

  lemma {:induction false} BelowRow(t: Table, chain: seq<Block>, start: nat)
    requires chain != [] && Linked(chain, start) && IsTable(t, chain)
    ensures TipOf(Init(chain)) == if |chain| == 1 then None
                                  else Some(Tip(start + |chain| - 2, t.recs[|chain| - 2].hash))
  {
    hide ValidChain, TxCount;
  }

  lemma {:induction false} TopUndoes(store: Store, chain: seq<Block>, seen: nat)
    requires chain != [] && Undoes(store, chain, seen) && Last(chain).height !in store.undo
    ensures Last(chain).height < SubDepth(seen)
  {
    var i := |chain| - 1;
    assert chain[i] == Last(chain);
  }

  lemma {:induction false} WithinInit(chain: seq<Block>, blocks: iset<Block>)
    requires chain != [] && Within(chain, blocks)
    ensures Within(Init(chain), blocks)
  {
  }

  lemma {:induction false} PopOk(t: Table, chain: seq<Block>)
    requires chain != [] && IsTable(t, chain)
    ensures t.recs != [] && IsTable(Table(t.start, Init(t.recs)), Init(chain))
  {
    hide TxCount;
    assert chain == Init(chain) + [Last(chain)];
    TableSnoc(Init(chain), Last(chain));
  }

  // ------------------------------------------------------------ the fork point

  /** `ask` answers from the node chain `node`, whose first height is `first`. */
  ghost predicate AnswersFrom(ask: Answers, node: seq<Block>, first: nat) {
    forall h: nat :: first <= h < first + |node| ==> ask(0, h) == Some(node[h - first].hash)
  }

  /** Everything below a block on the node's chain is on it too, so stopping at
      the first match from the top stops exactly at the fork point. */
  lemma {:induction false} BelowAMatch(chain: seq<Block>, start: nat, node: seq<Block>, first: nat, ask: Answers,
                                       k: nat, i: nat)
    requires Links(chain, start) && Links(node, first) && HashesBind(chain, node) && AnswersFrom(ask, node, first)
    requires node != [] && first <= start
    requires 0 < k <= |chain| && i < k
    requires OnNode(chain[k - 1], ask, first + |node| - 1)
    ensures OnNode(chain[i], ask, first + |node| - 1)
    decreases k
  {
    var nodeTip := first + |node| - 1;
    var x := chain[k - 1];
    assert x in chain && ask(0, x.height) == Some(node[x.height - first].hash);
    assert node[x.height - first] in node;
    assert x == node[x.height - first];
    if i < k - 1 {
      var y := chain[k - 2];
      assert y.hash == x.prev && node[x.height - first].prev == node[y.height - first].hash;
      assert ask(0, y.height) == Some(node[y.height - first].hash);
      BelowAMatch(chain, start, node, first, ask, k - 1, i);
    }
  }

  /** `Unwind` on a node chain that holds still: what it leaves, given what its
      contract says, is exactly the part of the chain the node has. */
  lemma {:induction false} UnwindStopsAtTheFork(chain: seq<Block>, start: nat, node: seq<Block>, first: nat,
                                                ask: Answers, k: nat)
    requires Links(chain, start) && Links(node, first) && HashesBind(chain, node) && AnswersFrom(ask, node, first)
    requires node != [] && first <= start && k <= |chain|
    requires OffNodeFrom(chain, k, ask, first + |node| - 1)
    requires k == 0 || OnNode(chain[k - 1], ask, first + |node| - 1)
    ensures forall i :: 0 <= i < |chain| ==> (i < k <==> OnNode(chain[i], ask, first + |node| - 1))
    ensures forall i :: 0 <= i < |chain| ==> (i < k <==> chain[i] in node)
  {
    var nodeTip := first + |node| - 1;
    forall i | 0 <= i < |chain|
      ensures i < k <==> OnNode(chain[i], ask, nodeTip)
      ensures i < k <==> chain[i] in node
    {
      if i < k {
        BelowAMatch(chain, start, node, first, ask, k, i);
        assert chain[i] in chain && node[chain[i].height - first] in node;
      } else if chain[i] in node {
        var j :| 0 <= j < |node| && node[j] == chain[i];
      }
    }
  }

  /** A node behind us on our own chain is waited for iff its tip is among the
      heights we index; below them everything is discarded. */
  lemma {:induction false} WaitsWhen(chain: seq<Block>, start: nat, ask: Answers, nodeTip: nat)
    requires nodeTip < start + |chain| - 1
    requires forall i :: 0 <= i < |chain| && start + i <= nodeTip ==> ask(0, start + i) == Some(chain[i].hash)
    ensures MerelyBehind(chain, start, ask, nodeTip) <==> start <= nodeTip
    ensures nodeTip < start && Links(chain, start) ==> OffNodeFrom(chain, 0, ask, nodeTip)
  {
    if start <= nodeTip {
      assert ask(0, start + (nodeTip - start)) == Some(chain[nodeTip - start].hash);
    }
  }

  /** After a complete pass the index is the node's chain: every block of it. */
  lemma {:induction false} CaughtUpIsTheNode(chain: seq<Block>, start: nat, node: seq<Block>, first: nat, ask: Answers)
    requires Links(chain, start) && Links(node, first) && HashesBind(chain, node) && AnswersFrom(ask, node, first)
    requires node != [] && first <= start && chain != []
    requires OnNode(Last(chain), ask, first + |node| - 1)
    ensures start - first + |chain| <= |node| && chain == node[start - first..start - first + |chain|]
  {
    forall i | 0 <= i < |chain|
      ensures start - first + i < |node| && chain[i] == node[start - first + i]
    {
      BelowAMatch(chain, start, node, first, ask, |chain|, i);
      assert chain[i] in chain && node[chain[i].height - first] in node;
    }
  }
}
