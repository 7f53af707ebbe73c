/** A database begun at one height and opened with another `--start-height`:
    once every block is unwound the index begins again elsewhere, and readers
    that pair a table with a snapshot by their tips can mix the two runs. */
module Relocation {
  import opened Types
  import opened Ledger
  import opened Storage
  import opened Chain
  import opened Machine

  /** Any table published in one run pairs with the snapshots of any other run
      that name its tip exactly when both runs begin at one height. */
  lemma {:induction false} PairedAcrossRuns(past: seq<State>, first: nat, i: nat, run: seq<State>, start: nat, j: nat)
    requires Run(past, first) && Run(run, start) && i < |past| && j < |run|
    requires HashesBind(past[i].publishedChain, run[j].chain)
    requires past[i].published.recs != [] && past[i].published.Tip() == Visible(run[j].disk).rows.tip
    ensures Loads(Visible(run[j].disk).rows, past[i].published) <==> first == start
  {
    hide Run, HashesBind, Loads, ValidChain, Inv;
    RunOk(past, first, i);
    RunOk(run, start, j);
    PairedStates(past[i], first, run[j], start);
  }

  lemma {:induction false} PairedStates(s: State, first: nat, s': State, start: nat)
    requires Inv(s, first) && Inv(s', start) && HashesBind(s.publishedChain, s'.chain)
    requires s.published.recs != [] && s.published.Tip() == Visible(s'.disk).rows.tip
    ensures Loads(Visible(s'.disk).rows, s.published) <==> first == start
  {
    hide HashesBind, ValidChain;
    VisibleOk(s', start);
    TableTip(s.published, s.publishedChain, first);
    ReplayTip(s'.chain);
    if first == start {
      SameTipSameChain(s.publishedChain, s'.chain, start);
      LoadedTable(Visible(s'.disk), s'.chain, start, s.published);
    } else {
      BlockKeys(s'.chain, start);
      var blocks := Visible(s'.disk).rows.blocks;
      assert start in blocks && s.published.start == first;
      assert first in blocks <==> start <= first < start + |s'.chain|;
    }
  }

  // ------------------------------------------------------------ such a pair of runs

  ghost predicate Quiet(s: State) {
    !s.bulkDirty && TxCount(s.chain) == 0
  }

  /** Commit one block without indexed transactions. */
  lemma {:induction false} CommitEmpty(s: State, start: nat, b: Block) returns (s': State)
    requires Quiet(s) && b.txs == [] && Linked(s.chain + [b], start)
    ensures Step(s, s', start) && Quiet(s')
    ensures s' == Append(s, DurableBatch(b), true, s.chain + [b])
  {
    hide Linked, Applied, WriteAll, DurableBatch;
    DurableBatchApplies(Visible(s.disk), b);
    s' := Append(s, DurableBatch(b), true, s.chain + [b]);
    assert Next(s, Commit([b], true, DurableBatch(b)), s', start);
    assert Init(s.chain + [b]) == s.chain;
  }

  /** A store that indexes the one block `b`. */
  function OnlyBlock(b: Block): Store {
    Store(EMPTY.(blocks := map[b.height := RecOf(b, 0)], tip := Some(Tip(b.height, b.hash))),
          map[b.height := Undo(0, 0, [], [], [])])
  }

  lemma {:induction false} OnlyBlockIndexes(b: Block)
    requires b.txs == []
    ensures Linked([b], b.height) && Indexes(OnlyBlock(b), [b], b.height) && TxCount([b]) == 0
  {
    assert Init([b]) == [] && [b][..0] == [] && [b][..1] == [b];
    assert Flat([]) == [] && Flat([b]) == [];
    assert Replay([]) == EMPTY && Replay([b]) == ApplyBlock(EMPTY, b, 0);
    assert ToSet<Touch>([]) == {} && ToSet<Coin>([]) == {};
  }

  /** The process as it opens such a store. */
  function Opened(b: Block): State {
    State(Disk(OnlyBlock(b), [], 0), [b], [[b]], false, Table(b.height, [RecOf(b, 0)]), [b], b.height)
  }

  lemma {:induction false} OpenedRuns(b: Block)
    requires b.txs == []
    ensures Run([Opened(b)], b.height) && Quiet(Opened(b))
  {
    OnlyBlockIndexes(b);
    assert TableRecs([b]) == [RecOf(b, 0)] by { assert [b][..0] == []; }
    FreshState(Opened(b), b.height);
  }

  function UndoBatch(b: Block): seq<Op> {
    [DelBlock(b.height), DelUndo(b.height), SetTip(None)]
  }

  lemma {:induction false} UndoBatchWrites(b: Block)
    ensures WriteAll(OnlyBlock(b), UndoBatch(b)) == EMPTY_STORE
  {
    var s, batch := OnlyBlock(b), UndoBatch(b);
    assert batch == [] + [batch[0]] + [batch[1]] + [batch[2]];
    WriteMore(s, [], batch[0]);
    WriteMore(s, [] + [batch[0]], batch[1]);
    WriteMore(s, [] + [batch[0]] + [batch[1]], batch[2]);
  }

  function Unwound(b: Block): State {
    Append(Opened(b), UndoBatch(b), true, [])
  }

  /** The node's tip is below the first height: the only block is rolled back. */
  lemma {:induction false} Unwinds(b: Block)
    requires b.txs == []
    ensures Step(Opened(b), Unwound(b), b.height)
  {
    UndoBatchWrites(b);
    var s := Opened(b);
    assert Init(s.chain) == [];
    assert ToSet<Touch>([]) == {} && ToSet<Coin>([]) == {};
    assert RollbackStep(s, Unwound(b), UndoBatch(b));
    assert Next(s, Rollback(UndoBatch(b)), Unwound(b), b.height);
  }

  function Cleared(b: Block): State {
    Unwound(b).(published := Table(b.height, []), publishedChain := [])
  }

  /** The run of the old index, to the point where nothing is left of it. */
  lemma {:induction false} PastRun(b: Block)
    requires b.txs == []
    ensures Run([Opened(b), Unwound(b), Cleared(b)], b.height)
    ensures Quiet(Cleared(b)) && Cleared(b).chain == []
  {
    hide Run, Step;
    OpenedRuns(b);
    Unwinds(b);
    ExtendRun([Opened(b)], Unwound(b), b.height);
    assert Step(Unwound(b), Cleared(b), b.height) by {
      Clears(b);
    }
    ExtendRun([Opened(b)] + [Unwound(b)], Cleared(b), b.height);
    assert [Opened(b)] + [Unwound(b)] + [Cleared(b)] == [Opened(b), Unwound(b), Cleared(b)];
  }

  lemma {:induction false} Clears(b: Block)
    ensures Step(Unwound(b), Cleared(b), b.height)
  {
    assert Next(Unwound(b), Publish(Table(b.height, [])), Cleared(b), b.height);
  }

  /** The run after it, at the configured height. */
  lemma {:induction false} NewRun(s: State, first: nat) returns (run: seq<State>)
    requires Inv(s, first) && Quiet(s) && s.chain == [] && s.published.recs == []
    ensures run != [] && Run(run, 0) && run[0] == s && Last(run).chain == [FIRST, SECOND]
  {
    hide Run, Step, Inv, Linked;
    EmptyStartsAnywhere(s, first, 0);
    TwoBlocksLink();
    OnlyBlockIndexes(FIRST);
    assert [] + [FIRST] == [FIRST] && [FIRST] + [SECOND] == [FIRST, SECOND];
    var s1 := CommitEmpty(s, 0, FIRST);
    ExtendRun([s], s1, 0);
    var s2 := CommitEmpty(s1, 0, SECOND);
    ExtendRun([s] + [s1], s2, 0);
    run := [s] + [s1] + [s2];
  }

  /** One process, a database begun at height 1 and `--start-height` 0: the node's
      tip falls to 0, the index is unwound and begun again, and the tip returns.
      The table read before and the snapshot taken after name one tip, and the
      snapshot's rows are not the table's. */
  lemma {:induction false} PairingCanMix() returns (past: seq<State>, run: seq<State>)
    ensures past != [] && run != [] && Run(past, 1) && Run(run, 0) && Last(past) == run[0]
    ensures HashesBind(past[0].publishedChain, Last(run).chain)
    ensures past[0].published.Tip() == Visible(Last(run).disk).rows.tip
    ensures !Loads(Visible(Last(run).disk).rows, past[0].published)
  {
    hide Run, Inv, Loads;
    past := [Opened(SECOND), Unwound(SECOND), Cleared(SECOND)];
    PastRun(SECOND);
    RunOk(past, 1, 2);
    run := NewRun(Cleared(SECOND), 1);
    RunsReplay(run, 0, |run| - 1);
    ReplayTip([FIRST, SECOND]);
    PairedAcrossRuns(past, 1, 0, run, 0, |run| - 1);
  }
}
