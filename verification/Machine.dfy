/** The syncer, its database and the world around it as one state machine:
    every commit, publish, flush and background flush is a step, and a crash
    with restart may happen between any two. */
module Machine {
  import opened Types
  import opened Ledger
  import opened Storage
  import opened Chain

  const MAX_REORG_DEPTH: nat := 288

  /** A block table as readers see it: the rows of heights `start`, `start + 1`, ... */
  datatype Table = Table(start: nat, recs: seq<BlockRec>) {
    function Tip(): Option<Tip> {
      if recs == [] then None else Some(Types.Tip.Tip(start + |recs| - 1, Last(recs).hash))
    }
  }

  function TableRecs(chain: seq<Block>): (recs: seq<BlockRec>)
    ensures |recs| == |chain|
  {
    seq(|chain|, i requires 0 <= i < |chain| => RecOf(chain[i], TxCount(chain[..i])))
  }

  /** The table of `chain`; an empty table's `start` means nothing. */
  ghost predicate IsTable(t: Table, chain: seq<Block>) {
    t.recs == TableRecs(chain) && (chain != [] ==> t.start == chain[0].height)
  }

  datatype State = State(
    disk: Disk,
    /** The chain the visible store indexes. */
    chain: seq<Block>,
    /** The chain after each prefix of the log. */
    versions: seq<seq<Block>>,
    bulkDirty: bool,
    published: Table,
    publishedChain: seq<Block>,
    /** The largest node tip any pass has seen. */
    seen: nat)

  function SubDepth(n: nat): nat {
    if n < MAX_REORG_DEPTH then 0 else n - MAX_REORG_DEPTH
  }

  datatype Event =
    | Commit(blocks: seq<Block>, durable: bool, batch: seq<Op>)
    | Rollback(batch: seq<Op>)
    | Prune(below: nat, batch: seq<Op>)
    | Flush
    | BackgroundFlush(k: nat)
    | Publish(table: Table)
    | SeeTip(nodeTip: nat)
    | Crash(k: nat, table: Table, m: nat)

  function Append(s: State, batch: seq<Op>, durable: bool, chain: seq<Block>): State {
    s.(disk := s.disk.(log := s.disk.log + [Entry(batch, durable)]),
    chain := chain,
    versions := s.versions + [chain])
  }

  ghost predicate CommitStep(s: State, s': State, start: nat, blocks: seq<Block>, durable: bool, batch: seq<Op>) {
    && (durable ==> !s.bulkDirty)
    && Linked(s.chain + blocks, start)
    && Applied(Visible(s.disk), WriteAll(Visible(s.disk), batch), blocks, TxCount(s.chain), durable)
    && (!durable ==> forall i :: 0 <= i < |blocks| ==> blocks[i].height < SubDepth(s.seen))
    && s' == Append(s, batch, durable, s.chain + blocks).(bulkDirty := s.bulkDirty || !durable)
  }

  ghost predicate RollbackStep(s: State, s': State, batch: seq<Op>) {
    && !s.bulkDirty
    && s.chain != []
    && var below, h := Init(s.chain), Last(s.chain).height;
    var store := Visible(s.disk);
    && h in store.undo
    && WriteAll(store, batch) ==
       Store(RollbackRows(store.rows, store.undo[h], h, RecOf(Last(s.chain), TxCount(below)), TipOf(below)),
             store.undo - {h})
    && s' == Append(s, batch, true, below)
  }

  ghost predicate PruneStep(s: State, s': State, below: nat, batch: seq<Op>) {
    && !s.bulkDirty
    && below <= SubDepth(s.seen)
    && WriteAll(Visible(s.disk), batch) == Visible(s.disk).(undo := WithoutRange(Visible(s.disk).undo, 0, below))
    && s' == Append(s, batch, true, s.chain)
  }

  /** `load_blocks` and the startup checks: contiguous rows, and the same tip. */
  ghost predicate Loads(rows: Rows, t: Table) {
    && (forall h :: h in rows.blocks <==> t.start <= h < t.start + |t.recs|)
    && (forall i :: 0 <= i < |t.recs| ==> rows.blocks[t.start + i] == t.recs[i])
    && rows.tip == t.Tip()
  }

  /** A crash may leave the log cut off at `i`: past what was flushed, and past
      every durable entry. */
  ghost predicate Recoverable(d: Disk, i: nat) {
    d.flushed <= i <= |d.log| && forall j :: i <= j < |d.log| ==> !d.log[j].durable
  }

  ghost predicate CrashStep(s: State, s': State, k: nat, table: Table, m: nat) {
    && s.disk.flushed <= k <= |s.disk.log|
    && m < |s.versions| && Recoverable(s.disk, m)
    && Recovered(s.disk, k) == WriteEntries(s.disk.base, s.disk.log[..m])
    && Loads(Recovered(s.disk, k).rows, table)
    && s' == State(Disk(Recovered(s.disk, k), [], 0), s.versions[m], [s.versions[m]], false, table, s.versions[m],
                   s.seen)
  }

  ghost predicate Next(s: State, e: Event, s': State, start: nat) {
    match e
    case Commit(blocks, durable, batch) => CommitStep(s, s', start, blocks, durable, batch)
    case Rollback(batch) => RollbackStep(s, s', batch)
    case Prune(below, batch) => PruneStep(s, s', below, batch)
    case Flush => s' == s.(disk := s.disk.(flushed := |s.disk.log|), bulkDirty := false)
    case BackgroundFlush(k) => s.disk.flushed <= k <= |s.disk.log| && s' == s.(disk := s.disk.(flushed := k))
    case Publish(table) => IsTable(table, s.chain) && s' == s.(published := table, publishedChain := s.chain)
    case SeeTip(n) => s' == s.(seen := if n > s.seen then n else s.seen)
    case Crash(k, table, m) => CrashStep(s, s', k, table, m)
  }

  ghost predicate Step(s: State, s': State, start: nat) {
    exists e :: Next(s, e, s', start)
  }

  // -------------------------------------------------------------- invariants

  /** Every block within `MAX_REORG_DEPTH` of the largest node tip seen can be undone. */
  ghost predicate Undoes(store: Store, chain: seq<Block>, seen: nat) {
    forall i :: 0 <= i < |chain| && chain[i].height >= SubDepth(seen) ==> chain[i].height in store.undo
  }

  ghost predicate VersionOk(s: State, start: nat, i: nat)
    requires i < |s.versions| && i <= |s.disk.log|
  {
    var store := WriteEntries(s.disk.base, s.disk.log[..i]);
    && Linked(s.versions[i], start)
    && Indexes(store, s.versions[i], start)
    && Undoes(store, s.versions[i], s.seen)
  }

  ghost predicate Inv(s: State, start: nat) {
    && Disciplined(s.disk)
    && (!s.bulkDirty ==> forall i :: s.disk.flushed <= i < |s.disk.log| ==> s.disk.log[i].durable)
    && |s.versions| == |s.disk.log| + 1
    && Last(s.versions) == s.chain
    && (forall i :: 0 <= i < |s.versions| && Recoverable(s.disk, i) ==> VersionOk(s, start, i))
    && Linked(s.publishedChain, start)
    && IsTable(s.published, s.publishedChain)
  }

  lemma {:induction false} VisibleOk(s: State, start: nat)
    requires Inv(s, start)
    ensures Linked(s.chain, start) && Indexes(Visible(s.disk), s.chain, start)
    ensures Undoes(Visible(s.disk), s.chain, s.seen)
  {
    hide Linked, Indexes, Undoes;
    assert Recoverable(s.disk, |s.disk.log|);
    assert VersionOk(s, start, |s.disk.log|);
    assert s.disk.log[..|s.disk.log|] == s.disk.log;
  }

  /** One more log entry keeps the earlier versions and adds the new one. */
  lemma {:induction false} AppendLogOk(s: State, s': State, start: nat, batch: seq<Op>, durable: bool,
                                       chain: seq<Block>)
    requires Inv(s, start)
    requires durable ==> !s.bulkDirty
    requires s' == Append(s, batch, durable, chain).(bulkDirty := s.bulkDirty || !durable)
    ensures Disciplined(s'.disk)
    ensures !s'.bulkDirty ==> forall i :: s'.disk.flushed <= i < |s'.disk.log| ==> s'.disk.log[i].durable
  {
    hide VersionOk, Linked, IsTable;
  }

  lemma {:induction false} NewVersion(s: State, s': State, start: nat, batch: seq<Op>, durable: bool, chain: seq<Block>)
    requires s' == Append(s, batch, durable, chain).(bulkDirty := s.bulkDirty || !durable)
    requires |s.versions| == |s.disk.log| + 1
    requires Linked(chain, start)
    requires Indexes(WriteAll(Visible(s.disk), batch), chain, start)
    requires Undoes(WriteAll(Visible(s.disk), batch), chain, s.seen)
    ensures VersionOk(s', start, |s.disk.log| + 1)
  {
    hide WriteAll, Linked, Indexes, Undoes;
    var log, log' := s.disk.log, s'.disk.log;
    assert Init(log') == log && log'[..|log| + 1] == log';
  }

  lemma {:induction false} AppendOk(s: State, start: nat, batch: seq<Op>, durable: bool, chain: seq<Block>)
    requires Inv(s, start)
    requires durable ==> !s.bulkDirty
    requires Linked(chain, start)
    requires Indexes(WriteAll(Visible(s.disk), batch), chain, start)
    requires Undoes(WriteAll(Visible(s.disk), batch), chain, s.seen)
    ensures Inv(Append(s, batch, durable, chain).(bulkDirty := s.bulkDirty || !durable), start)
  {
    hide Linked, Indexes, Undoes, IsTable, WriteAll, WriteEntries, VersionOk, Disciplined;
    var s' := Append(s, batch, durable, chain).(bulkDirty := s.bulkDirty || !durable);
    AppendLogOk(s, s', start, batch, durable, chain);
    NewVersion(s, s', start, batch, durable, chain);
    forall i | 0 <= i < |s'.versions| && Recoverable(s'.disk, i)
      ensures VersionOk(s', start, i)
    {
      if i < |s.versions| {
        assert s'.disk.log[|s.disk.log|].durable == durable;
        assert forall j :: 0 <= j < |s.disk.log| ==> s'.disk.log[j] == s.disk.log[j];
        assert Recoverable(s.disk, i);
        assert VersionOk(s, start, i);
        assert s'.disk.log[..i] == s.disk.log[..i];
        SameVersion(s, s', start, i);
      }
    }
  }

  lemma {:induction false} SameVersion(s: State, s': State, start: nat, i: nat)
    requires i < |s.versions| && i <= |s.disk.log| && i < |s'.versions| && i <= |s'.disk.log|
    requires VersionOk(s, start, i)
    requires s'.versions[i] == s.versions[i] && s'.disk.base == s.disk.base && s'.disk.log[..i] == s.disk.log[..i]
    requires s'.seen == s.seen
    ensures VersionOk(s', start, i)
  {
    hide WriteEntries, Linked, Indexes, Undoes;
  }

  lemma {:induction false} CommitKeepsUndo(s: Store, s': Store, chain: seq<Block>, blocks: seq<Block>, n: TxNum,
                                           durable: bool, seen: nat)
    requires Undoes(s, chain, seen) && Applied(s, s', blocks, n, durable)
    requires !durable ==> forall i :: 0 <= i < |blocks| ==> blocks[i].height < SubDepth(seen)
    ensures Undoes(s', chain + blocks, seen)
  {
    hide Undoable, UndoFor, ApplyBlocks;
    forall i | 0 <= i < |chain + blocks| && (chain + blocks)[i].height >= SubDepth(seen)
      ensures (chain + blocks)[i].height in s'.undo
    {
      if i < |chain| {
        assert chain[i].height in s.undo;
      } else {
        assert (chain + blocks)[i] == blocks[i - |chain|];
      }
    }
  }

  lemma {:induction false} CommitOk(s: State, s': State, start: nat, blocks: seq<Block>, durable: bool, batch: seq<Op>)
    requires Inv(s, start) && CommitStep(s, s', start, blocks, durable, batch)
    ensures Inv(s', start)
  {
    hide Inv, Linked, Indexes, Undoes, Applied, WriteAll, Visible;
    VisibleOk(s, start);
    var store := Visible(s.disk);
    ApplyIndexes(store, WriteAll(store, batch), s.chain, blocks, start, durable);
    CommitKeepsUndo(store, WriteAll(store, batch), s.chain, blocks, TxCount(s.chain), durable, s.seen);
    AppendOk(s, start, batch, durable, s.chain + blocks);
  }

  lemma {:induction false} RollbackKeepsUndo(s: Store, rows: Rows, chain: seq<Block>, start: nat, seen: nat)
    requires chain != [] && Linked(chain, start) && Undoes(s, chain, seen)
    ensures Undoes(Store(rows, s.undo - {Last(chain).height}), Init(chain), seen)
  {
  }

  lemma {:induction false} RollbackOk(s: State, s': State, start: nat, batch: seq<Op>)
    requires Inv(s, start) && RollbackStep(s, s', batch)
    ensures Inv(s', start)
  {
    hide Inv, Linked, Indexes, Undoes, WriteAll, Visible, RollbackRows, TxCount;
    VisibleOk(s, start);
    var store := Visible(s.disk);
    LinkedPrefix(s.chain, start, |s.chain| - 1);
    RollbackIndexes(store, s.chain, start);
    RollbackKeepsUndo(store, WriteAll(store, batch).rows, s.chain, start, s.seen);
    AppendOk(s, start, batch, true, Init(s.chain));
  }

  lemma {:induction false} PruneOk(s: State, s': State, start: nat, below: nat, batch: seq<Op>)
    requires Inv(s, start) && PruneStep(s, s', below, batch)
    ensures Inv(s', start)
  {
    hide Inv, Linked, Indexes, WriteAll, Visible;
    VisibleOk(s, start);
    var store := Visible(s.disk);
    PruneIndexes(store, s.chain, start, below);
    AppendOk(s, start, batch, true, s.chain);
  }

  lemma {:induction false} SeeTipOk(s: State, s': State, start: nat, n: nat)
    requires Inv(s, start) && s' == s.(seen := if n > s.seen then n else s.seen)
    ensures Inv(s', start)
  {
    hide Linked, Indexes, Disciplined, IsTable, WriteEntries;
    forall i | 0 <= i < |s'.versions| && Recoverable(s'.disk, i)
      ensures VersionOk(s', start, i)
    {
      assert Recoverable(s.disk, i);
      assert VersionOk(s, start, i);
    }
  }

  lemma {:induction false} FlushOk(s: State, s': State, start: nat, k: nat)
    requires Inv(s, start)
    requires (s.disk.flushed <= k <= |s.disk.log| && s' == s.(disk := s.disk.(flushed := k)))
             || (k == |s.disk.log| && s' == s.(disk := s.disk.(flushed := k), bulkDirty := false))
    ensures Inv(s', start)
  {
    hide Linked, Indexes, Undoes, IsTable, WriteEntries;
    forall i | 0 <= i < |s'.versions| && Recoverable(s'.disk, i)
      ensures VersionOk(s', start, i)
    {
      assert Recoverable(s.disk, i);
      assert VersionOk(s, start, i);
    }
  }

  lemma {:induction false} OwnTable(store: Store, chain: seq<Block>, start: nat)
    requires Linked(chain, start) && Indexes(store, chain, start)
    ensures Loads(store.rows, Table(start, TableRecs(chain)))
  {
    hide ValidChain, Replay, UndoOk, TxCount;
    BlocksOfReplay(chain, start);
    ReplayTip(chain);
    assert chain != [] ==> Last(TableRecs(chain)).hash == Last(chain).hash;
  }

  /** Rows determine the table loaded from them. */
  lemma {:induction false} LoadsOne(rows: Rows, t: Table, u: Table)
    requires Loads(rows, t) && Loads(rows, u)
    ensures t.recs == u.recs && (t.recs != [] ==> t.start == u.start)
  {
    SameBounds(t.start, |t.recs|, u.start, |u.recs|, rows.blocks);
    forall i | 0 <= i < |t.recs|
      ensures t.recs[i] == u.recs[i]
    {
      assert rows.blocks[t.start + i] == t.recs[i];
    }
  }

  /** A store that indexes a linked chain passes the startup checks, and the
      table loaded from it is that chain's. */
  lemma {:induction false} LoadedTable(store: Store, chain: seq<Block>, start: nat, t: Table)
    requires Linked(chain, start) && Indexes(store, chain, start)
    ensures Loads(store.rows, Table(start, TableRecs(chain)))
    ensures Loads(store.rows, t) ==> IsTable(t, chain)
  {
    hide ValidChain, Replay, UndoOk, Loads;
    OwnTable(store, chain, start);
    if Loads(store.rows, t) {
      LoadsOne(store.rows, t, Table(start, TableRecs(chain)));
    }
  }

  lemma {:induction false} SameBounds(a: nat, n: nat, b: nat, m: nat, rows: map<nat, BlockRec>)
    requires forall h :: h in rows <==> a <= h < a + n
    requires forall h :: h in rows <==> b <= h < b + m
    ensures n == m && (n > 0 ==> a == b)
  {
    assert n > 0 ==> a in rows && a + n - 1 in rows;
    assert m > 0 ==> b in rows && b + m - 1 in rows;
    assert n > 0 ==> a + n !in rows;
    assert m > 0 ==> b + m !in rows;
  }

  lemma {:induction false} CrashOk(s: State, s': State, start: nat, k: nat, table: Table, m: nat)
    requires Inv(s, start) && CrashStep(s, s', k, table, m)
    ensures Inv(s', start)
  {
    hide Linked, Indexes, Undoes, IsTable, Loads, Recovered;
    assert VersionOk(s, start, m);
    LoadedTable(Recovered(s.disk, k), s.versions[m], start, table);
    assert s'.disk.log[..0] == [];
    assert VersionOk(s', start, 0);
  }

  lemma {:induction false} StepOk(s: State, s': State, start: nat)
    requires Inv(s, start) && Step(s, s', start)
    ensures Inv(s', start)
  {
    hide Inv, CommitStep, RollbackStep, PruneStep, CrashStep, IsTable;
    var e :| Next(s, e, s', start);
    match e
    case Commit(blocks, durable, batch) => CommitOk(s, s', start, blocks, durable, batch);
    case Rollback(batch) => RollbackOk(s, s', start, batch);
    case Prune(below, batch) => PruneOk(s, s', start, below, batch);
    case Flush => FlushOk(s, s', start, |s.disk.log|);
    case BackgroundFlush(k) => FlushOk(s, s', start, k);
    case Publish(table) => PublishOk(s, s', start, table);
    case SeeTip(n) => SeeTipOk(s, s', start, n);
    case Crash(k, table, m) => CrashOk(s, s', start, k, table, m);
  }

  lemma {:induction false} PublishOk(s: State, s': State, start: nat, table: Table)
    requires Inv(s, start) && IsTable(table, s.chain) && s' == s.(published := table, publishedChain := s.chain)
    ensures Inv(s', start)
  {
    hide Linked, Indexes, Undoes, IsTable;
    VisibleOk(s, start);
    forall i | 0 <= i < |s'.versions| && Recoverable(s'.disk, i)
      ensures VersionOk(s', start, i)
    {
      assert Recoverable(s.disk, i);
      assert VersionOk(s, start, i);
    }
  }

  // -------------------------------------------------------------- whole runs

  ghost predicate Run(run: seq<State>, start: nat) {
    && run != []
    && Inv(run[0], start)
    && forall i :: 0 <= i < |run| - 1 ==> Step(run[i], run[i + 1], start)
  }

  lemma {:induction false} RunOk(run: seq<State>, start: nat, i: nat)
    requires Run(run, start) && i < |run|
    ensures Inv(run[i], start)
  {
    hide Inv, Step;
    if i > 0 {
      RunOk(run, start, i - 1);
      StepOk(run[i - 1], run[i], start);
    }
  }

  lemma {:induction false} FreshState(s: State, start: nat)
    requires s.disk.log == [] && s.disk.flushed == 0 && s.versions == [s.chain] && s.publishedChain == s.chain
    requires Linked(s.chain, start) && Indexes(s.disk.base, s.chain, start) && Undoes(s.disk.base, s.chain, s.seen)
    requires IsTable(s.published, s.chain)
    ensures Run([s], start)
  {
    hide Linked, Indexes, Undoes, IsTable;
    assert s.disk.log[..0] == [];
    assert VersionOk(s, start, 0);
  }

  lemma {:induction false} ExtendRun(run: seq<State>, s: State, start: nat)
    requires Run(run, start) && Step(Last(run), s, start)
    ensures Run(run + [s], start)
  {
    hide Step, Inv;
  }

  lemma {:induction false} DurableIsNotCut(d: Disk, i: nat)
    ensures d.flushed <= i < |d.log| && Recoverable(d, i) ==> !d.log[i].durable
  {
  }

  /** An index emptied by rollbacks may begin again at any height: nothing a
      crash could bring back is left of the old chain. */
  lemma {:induction false} EmptyStartsAnywhere(s: State, start: nat, elsewhere: nat)
    requires Inv(s, start) && s.chain == [] && !s.bulkDirty && s.published.recs == []
    ensures Run([s], elsewhere)
  {
    hide Undoes, UndoOk, WriteEntries, ValidChain, Disciplined;
    forall i | 0 <= i < |s.versions| && Recoverable(s.disk, i)
      ensures VersionOk(s, elsewhere, i)
    {
      DurableIsNotCut(s.disk, i);
      assert VersionOk(s, start, i);
    }
    assert s.publishedChain == [];
  }

  /** Replay refinement: in every state of every run the store is the replay of
      the current chain, and nothing else. */
  lemma {:induction false} RunsReplay(run: seq<State>, start: nat, i: nat)
    requires Run(run, start) && i < |run|
    ensures Linked(run[i].chain, start)
    ensures Visible(run[i].disk).rows == Replay(run[i].chain)
  {
    hide Inv, Run;
    RunOk(run, start, i);
    VisibleOk(run[i], start);
  }

  /** Undo is always sufficient: in every state of every run, each block at most
      `MAX_REORG_DEPTH` below the highest node tip ever seen has a record that
      undoes exactly that block. */
  lemma {:induction false} UndoIsSufficient(run: seq<State>, start: nat, i: nat, k: nat)
    requires Run(run, start) && i < |run| && k < |run[i].chain|
    requires run[i].chain[k].height + 288 >= run[i].seen
    ensures var undo, h := Visible(run[i].disk).undo, run[i].chain[k].height;
            h in undo && UndoOk(undo[h], run[i].chain, k)
  {
    hide UndoOk, Inv, Visible, ValidChain, Replay;
    RunOk(run, start, i);
    VisibleOk(run[i], start);
  }

  /** Crash consistency: whatever a crash leaves, at any point of any run and
      with any background flush, is the replay of one linked chain the index
      has had; every durable commit survives; and the restart accepts it. */
  lemma {:induction false} CrashesRecoverAChain(run: seq<State>, start: nat, i: nat, k: nat) returns (m: nat)
    requires Run(run, start) && i < |run|
    requires run[i].disk.flushed <= k <= |run[i].disk.log|
    ensures k <= m <= |run[i].disk.log| && |run[i].versions| == |run[i].disk.log| + 1
    ensures forall j :: m <= j < |run[i].disk.log| ==> !run[i].disk.log[j].durable
    ensures Linked(run[i].versions[m], start)
    ensures Recovered(run[i].disk, k).rows == Replay(run[i].versions[m])
    ensures Indexes(Recovered(run[i].disk, k), run[i].versions[m], start)
    ensures Undoes(Recovered(run[i].disk, k), run[i].versions[m], run[i].seen)
    ensures Loads(Recovered(run[i].disk, k).rows, Table(start, TableRecs(run[i].versions[m])))
  {
    hide Run, Linked, Undoes, Loads, Recovered, IsTable;
    RunOk(run, start, i);
    var s := run[i];
    m := CrashIsAPrefix(s.disk, k);
    assert VersionOk(s, start, m);
    LoadedTable(Recovered(s.disk, k), s.versions[m], start, Table(start, []));
  }

  /** A crash is possible in every state a run reaches, whatever was flushed. */
  lemma {:induction false} CrashIsAStep(run: seq<State>, start: nat, i: nat, k: nat) returns (s': State)
    requires Run(run, start) && i < |run|
    requires run[i].disk.flushed <= k <= |run[i].disk.log|
    ensures Step(run[i], s', start)
    ensures s'.disk == Disk(Recovered(run[i].disk, k), [], 0) && !s'.bulkDirty
  {
    hide Run, Linked, Undoes, Loads, Recovered, IsTable, Indexes;
    RunOk(run, start, i);
    var s := run[i];
    var m := CrashIsAPrefix(s.disk, k);
    assert VersionOk(s, start, m);
    var table := Table(start, TableRecs(s.versions[m]));
    LoadedTable(Recovered(s.disk, k), s.versions[m], start, table);
    s' := State(Disk(Recovered(s.disk, k), [], 0), s.versions[m], [s.versions[m]], false, table, s.versions[m], s.seen);
    assert Next(s, Crash(k, table, m), s', start);
  }

  const FIRST: Block := Block(0, 10, 9, 0, [])
  const SECOND: Block := Block(1, 11, 10, 0, [])

  /** Two blocks as `apply` writes them, in bulk and then durably. */
  function BulkBatch(): seq<Op> {
    [PutBlock(0, RecOf(FIRST, 0)), SetTip(Some(Tip(0, 10)))]
  }

  function DurableBatch(b: Block): seq<Op> {
    [PutBlock(b.height, RecOf(b, 0)), PutUndo(b.height, Undo(0, 0, [], [], [])), SetTip(Some(Tip(b.height, b.hash)))]
  }

  function UnflushedDisk(): Disk {
    Disk(EMPTY_STORE, [Entry(BulkBatch(), false), Entry(DurableBatch(SECOND), true)], 0)
  }

  function AfterFirst(): Store {
    Store(EMPTY.(blocks := map[0 := RecOf(FIRST, 0)], tip := Some(Tip(0, 10))), map[])
  }

  lemma {:induction false} BulkBatchApplies()
    ensures WriteAll(EMPTY_STORE, BulkBatch()) == AfterFirst()
    ensures Applied(EMPTY_STORE, AfterFirst(), [FIRST], 0, false)
  {
    var batch := BulkBatch();
    assert Init(batch) == [batch[0]] && Init(Init(batch)) == [];
    assert Init([FIRST]) == [] && [FIRST][..0] == [];
  }

  lemma {:induction false} DurableBatchWrites(s: Store, b: Block)
    ensures WriteAll(s, DurableBatch(b)) ==
            Store(s.rows.(blocks := s.rows.blocks[b.height := RecOf(b, 0)], tip := Some(Tip(b.height, b.hash))),
                  s.undo[b.height := Undo(0, 0, [], [], [])])
  {
    var batch := DurableBatch(b);
    assert batch == [] + [batch[0]] + [batch[1]] + [batch[2]];
    WriteMore(s, [], batch[0]);
    WriteMore(s, [] + [batch[0]], batch[1]);
    WriteMore(s, [] + [batch[0]] + [batch[1]], batch[2]);
  }

  lemma {:induction false} DurableBatchApplies(s: Store, b: Block)
    requires b.txs == []
    ensures Applied(s, WriteAll(s, DurableBatch(b)), [b], 0, true)
  {
    DurableBatchWrites(s, b);
    assert Init([b]) == [] && [b][..0] == [] && [b][..1] == [b];
    assert ApplyBlocks(s.rows, [], 0) == s.rows;
    assert ApplyBlocks(s.rows, [b], 0) == ApplyBlock(s.rows, b, 0);
    assert ToSet<Touch>([]) == {} && ToSet<Coin>([]) == {};
  }

  /** Why bulk writes are flushed before a durable one: otherwise a crash can
      replay the log on top of a hole, leaving no chain's index at all. */
  lemma {:induction false} HoleWithoutFlush()
    ensures var d := UnflushedDisk();
            && Applied(EMPTY_STORE, WriteAll(EMPTY_STORE, d.log[0].batch), [FIRST], 0, false)
            && Applied(WriteAll(EMPTY_STORE, d.log[0].batch),
                       WriteAll(WriteAll(EMPTY_STORE, d.log[0].batch), d.log[1].batch), [SECOND], 0, true)
            && Linked([FIRST, SECOND], 0)
            && !Disciplined(d) && forall chain :: Linked(chain, 0) ==> Recovered(d, 0).rows != Replay(chain)
  {
    hide ValidChain, WriteAll, Applied, BulkBatch, DurableBatch;
    BulkBatchApplies();
    DurableBatchApplies(AfterFirst(), SECOND);
    TwoBlocksLink();
    var d := UnflushedDisk();
    assert !d.log[0].durable && d.log[1].durable;
    var tail := d.log[0..];
    assert tail == d.log && Init(tail) == [d.log[0]] && Init([d.log[0]]) == [];
    assert DurableOnly([d.log[0]]) == [];
    assert DurableOnly(tail) == [d.log[1]];
    assert d.log[..0] == [] && Init([d.log[1]]) == [];
    DurableBatchWrites(EMPTY_STORE, SECOND);
    assert Recovered(d, 0) == WriteAll(EMPTY_STORE, d.log[1].batch);
    forall chain | Linked(chain, 0)
      ensures Recovered(d, 0).rows != Replay(chain)
    {
      BlockKeys(chain, 0);
      assert 1 in Replay(chain).blocks ==> 0 in Replay(chain).blocks;
    }
  }

  lemma {:induction false} TwoBlocksLink()
    ensures Linked([FIRST, SECOND], 0)
  {
    var chain := [FIRST, SECOND];
    assert Init(chain) == [FIRST] && Init([FIRST]) == [];
    assert Flat([FIRST]) == [] && Flat(chain) == [];
  }

  // ---------------------------------------------------------- paired readers

  /** A block hash commits to the block, its parent included. */
  ghost predicate HashesBind(a: seq<Block>, b: seq<Block>) {
    forall x, y :: x in a && y in b && x.hash == y.hash ==> x == y
  }

  lemma {:induction false} SameTipSameChain(a: seq<Block>, b: seq<Block>, start: nat)
    requires Linked(a, start) && Linked(b, start) && HashesBind(a, b)
    requires TipOf(a) == TipOf(b)
    ensures a == b
  {
    hide ValidChain;
    if a != [] {
      assert Last(a) in a && Last(b) in b;
      assert |a| == |b|;
      SuffixAgrees(a, b, start, 0);
    }
  }

  lemma {:induction false} SuffixAgrees(a: seq<Block>, b: seq<Block>, start: nat, i: nat)
    requires Linked(a, start) && Linked(b, start) && HashesBind(a, b)
    requires |a| == |b| && i < |a| && Last(a) == Last(b)
    ensures a[i..] == b[i..]
    decreases |a| - i
  {
    hide ValidChain;
    if i < |a| - 1 {
      SuffixAgrees(a, b, start, i + 1);
      assert a[i + 1] == a[i + 1..][0] == b[i + 1..][0] == b[i + 1];
      assert a[i] in a && b[i] in b;
      assert a[i..] == [a[i]] + a[i + 1..] && b[i..] == [b[i]] + b[i + 1..];
    }
  }

  /** Readers never mix chain states: a table loaded at any point of a run and
      a snapshot taken at any point, accepted because both name the same tip,
      belong to one chain. The table is exactly the snapshot's `blocks` rows. */
  lemma {:induction false} PairedViewsAgree(run: seq<State>, start: nat, i: nat, j: nat)
    requires Run(run, start) && i < |run| && j < |run|
    requires HashesBind(run[i].publishedChain, run[j].chain)
    requires run[i].published.Tip() == Visible(run[j].disk).rows.tip
    ensures IsTable(run[i].published, run[j].chain)
    ensures run[i].published.recs != [] ==> Loads(Visible(run[j].disk).rows, run[i].published)
  {
    hide Run, Linked, HashesBind, Loads;
    RunOk(run, start, i);
    RunOk(run, start, j);
    VisibleOk(run[j], start);
    TableTip(run[i].published, run[i].publishedChain, start);
    ReplayTip(run[j].chain);
    SameTipSameChain(run[i].publishedChain, run[j].chain, start);
    LoadedTable(Visible(run[j].disk), run[j].chain, start, run[i].published);
    LinkedStart(run[j].chain, start);
  }

  lemma {:induction false} LinkedStart(chain: seq<Block>, start: nat)
    requires Linked(chain, start)
    ensures chain != [] ==> chain[0].height == start
  {
  }

  lemma {:induction false} ReplayTip(chain: seq<Block>)
    ensures Replay(chain).tip == TipOf(chain)
  {
    ReplayFlat(chain);
  }

  lemma {:induction false} TableTip(t: Table, chain: seq<Block>, start: nat)
    requires Linked(chain, start) && IsTable(t, chain)
    ensures t.Tip() == TipOf(chain)
  {
    hide ValidChain;
  }

  /** The pairing needs one first height: chains of two indexes that share
      their tip are equal exactly when they start alike. */
  lemma {:induction false} PairingNeedsOneStart(a: seq<Block>, b: seq<Block>, startA: nat, startB: nat)
    requires a != [] && b != [] && Linked(a, startA) && Linked(b, startB) && HashesBind(a, b)
    requires TipOf(a) == TipOf(b)
    ensures a == b <==> startA == startB
  {
    hide ValidChain;
    if startA == startB {
      SameTipSameChain(a, b, startA);
    }
  }
}
