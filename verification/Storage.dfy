/** The database as values: write batches, undo records, and the write log
    that decides what a crash leaves behind. */
module Storage {
  import opened Types
  import opened Ledger

  /** The difference a block made, as far as its row does not tell. */
  datatype Undo = Undo(
    firstTxnum: TxNum,
    nTxs: nat,
    addedHistory: seq<Touch>,
    addedUtxo: seq<Coin>,
    deletedUtxo: seq<(Coin, UtxoVal)>)

  datatype Store = Store(rows: Rows, undo: map<nat, Undo>)

  const EMPTY_STORE := Store(EMPTY, map[])

  /** One put or delete of a write batch. */
  datatype Op =
    | PutTxid(n: TxNum, txid: Txid)
    | DelTxids(lo: TxNum, hi: TxNum)
    | PutTouch(t: Touch)
    | DelTouch(t: Touch)
    | PutCoin(c: Coin, v: UtxoVal)
    | DelCoin(c: Coin)
    | PutBlock(h: nat, rec: BlockRec)
    | DelBlock(h: nat)
    | PutUndo(h: nat, u: Undo)
    | DelUndo(h: nat)
    | DelUndosBelow(h: nat)
    | SetTip(tip: Option<Tip>)

  /** `m` with the keys `lo <= k < hi` deleted. */
  function WithoutRange<V>(m: map<nat, V>, lo: nat, hi: nat): map<nat, V> {
    map k | k in m && !(lo <= k < hi) :: m[k]
  }

  function Write(s: Store, op: Op): Store {
    match op
    case PutTxid(n, txid) => s.(rows := s.rows.(txids := s.rows.txids[n := txid]))
    case DelTxids(lo, hi) => s.(rows := s.rows.(txids := WithoutRange(s.rows.txids, lo, hi)))
    case PutTouch(t) => s.(rows := s.rows.(history := s.rows.history + {t}))
    case DelTouch(t) => s.(rows := s.rows.(history := s.rows.history - {t}))
    case PutCoin(c, v) => s.(rows := s.rows.(utxo := s.rows.utxo[c := v]))
    case DelCoin(c) => s.(rows := s.rows.(utxo := s.rows.utxo - {c}))
    case PutBlock(h, rec) => s.(rows := s.rows.(blocks := s.rows.blocks[h := rec]))
    case DelBlock(h) => s.(rows := s.rows.(blocks := s.rows.blocks - {h}))
    case PutUndo(h, u) => s.(undo := s.undo[h := u])
    case DelUndo(h) => s.(undo := s.undo - {h})
    case DelUndosBelow(h) => s.(undo := WithoutRange(s.undo, 0, h))
    case SetTip(tip) => s.(rows := s.rows.(tip := tip))
  }

  /** A batch is applied in order: the last write of a key wins. */
  function WriteAll(s: Store, batch: seq<Op>): Store {
    if batch == [] then s else Write(WriteAll(s, Init(batch)), Last(batch))
  }

  lemma {:induction false} WriteMore(s: Store, batch: seq<Op>, op: Op)
    ensures WriteAll(s, batch + [op]) == Write(WriteAll(s, batch), op)
  {
    assert Init(batch + [op]) == batch;
  }

  // ------------------------------------------------------------ undo records

  lemma {:induction false} ToSetMore<T>(s: seq<T>, x: T)
    ensures ToSet(s + [x]) == ToSet(s) + {x}
  {
  }

  /** The coins a list of puts leaves. */
  function Restored(d: seq<(Coin, UtxoVal)>): map<Coin, UtxoVal> {
    if d == [] then map[] else Restored(Init(d))[Last(d).0 := Last(d).1]
  }

  /** `retain(|(dk, _)| dk != k)`. */
  function Without(d: seq<(Coin, UtxoVal)>, k: Coin): seq<(Coin, UtxoVal)> {
    if d == [] then []
    else if Last(d).0 == k then Without(Init(d), k)
    else Without(Init(d), k) + [Last(d)]
  }

  lemma {:induction false} RestoredWithout(d: seq<(Coin, UtxoVal)>, k: Coin)
    ensures Restored(Without(d, k)) == Restored(d) - {k}
  {
    if d != [] {
      RestoredWithout(Init(d), k);
      var w := Without(Init(d), k);
      assert Init(w + [Last(d)]) == w;
    }
  }

  lemma {:induction false} RestoredMore(d: seq<(Coin, UtxoVal)>, k: Coin, v: UtxoVal)
    ensures Restored(d + [(k, v)]) == Restored(d)[k := v]
  {
    assert Init(d + [(k, v)]) == d;
  }

  /** `u` is exactly the difference a block made: `pre` before it, `post` after. */
  ghost predicate IsUndo(u: Undo, pre: Rows, post: Rows, n: TxNum, nTxs: nat) {
    && u.firstTxnum == n
    && u.nTxs == nTxs
    && ToSet(u.addedHistory) == post.history - pre.history
    && ToSet(u.addedUtxo) == post.utxo.Keys - pre.utxo.Keys
    && Restored(u.deletedUtxo) == pre.utxo - post.utxo.Keys
  }

  function RollbackRows(r: Rows, u: Undo, h: nat, rec: BlockRec, newTip: Option<Tip>): Rows {
    Rows(WithoutRange(r.txids, rec.firstTxnum, rec.firstTxnum + rec.nTxs),
         r.history - ToSet(u.addedHistory),
         (r.utxo - ToSet(u.addedUtxo)) + Restored(u.deletedUtxo),
         r.blocks - {h},
         newTip)
  }

  function BlockFunded(txs: seq<TxRows>): set<Coin> {
    if txs == [] then {} else BlockFunded(Init(txs)) + FundedCoins(Last(txs))
  }

  function BlockSpent(txs: seq<TxRows>): set<Coin> {
    if txs == [] then {} else BlockSpent(Init(txs)) + SpentCoins(Last(txs))
  }

  /** No output a block creates is already in the UTXO set. */
  ghost predicate FreshFunding(utxo: map<Coin, UtxoVal>, txs: seq<TxRows>) {
    BlockFunded(txs) !! utxo.Keys
  }

  /** What applying transactions does to rows that were there before. */
  lemma {:induction false} ApplyTxsKeeps(r: Rows, txs: seq<TxRows>, n: TxNum, height: nat)
    ensures var r' := ApplyTxs(r, txs, n, height);
            && r.history <= r'.history
            && (forall t :: t in r'.history && t !in r.history ==> n <= t.txnum < n + |txs|)
            && (forall i :: i in r'.txids <==> i in r.txids || n <= i < n + |txs|)
            && (forall i :: i in r.txids && i < n ==> r'.txids[i] == r.txids[i])
            && r'.blocks == r.blocks && r'.tip == r.tip
  {
    if txs != [] {
      ApplyTxsKeeps(r, Init(txs), n, height);
    }
  }

  lemma {:induction false} ApplyTxsKeepsCoins(r: Rows, txs: seq<TxRows>, n: TxNum, height: nat)
    requires FreshFunding(r.utxo, txs)
    ensures var r' := ApplyTxs(r, txs, n, height);
            forall c :: c in r.utxo && c in r'.utxo ==> r'.utxo[c] == r.utxo[c]
  {
    if txs != [] {
      ApplyTxsKeepsCoins(r, Init(txs), n, height);
      FundAllKeys(ApplyTxs(r, Init(txs), n, height).utxo, Last(txs).txid, Last(txs).funded, height);
    }
  }

  /** Rolling a block back with its undo record restores every row exactly. */
  lemma {:induction false} RollbackInverts(pre: Rows, b: Block, n: TxNum, u: Undo)
    requires FreshFunding(pre.utxo, b.txs)
    requires b.height !in pre.blocks
    requires forall i :: i in pre.txids ==> i < n
    requires IsUndo(u, pre, ApplyBlock(pre, b, n), n, |b.txs|)
    ensures RollbackRows(ApplyBlock(pre, b, n), u, b.height, RecOf(b, n), pre.tip) == pre
  {
    hide ApplyTxs;
    ApplyTxsKeeps(pre, b.txs, n, b.height);
    ApplyTxsKeepsCoins(pre, b.txs, n, b.height);
    var post := ApplyBlock(pre, b, n);
    var back := RollbackRows(post, u, b.height, RecOf(b, n), pre.tip);
    assert back.txids == pre.txids;
    assert back.history == pre.history;
    assert back.utxo == pre.utxo;
    assert back.blocks == pre.blocks;
  }

  // ------------------------------------------------------------------ applies

  /** Every number an apply encodes fits the 40-bit txnum key. */
  ghost predicate Fits(blocks: seq<Block>, n: TxNum) {
    forall i :: 0 <= i < |blocks| ==> FitsAt(blocks, n, i)
  }

  ghost predicate FitsAt(blocks: seq<Block>, n: TxNum, i: nat)
    requires i < |blocks|
  {
    var first := n + TxCount(blocks[..i]);
    first <= MAX_TXNUM && first + |blocks[i].txs| <= MAX_TXNUM + 1
  }

  function AllSpentCoins(blocks: seq<Block>): set<Coin> {
    if blocks == [] then {} else AllSpentCoins(Init(blocks)) + BlockSpent(Last(blocks).txs)
  }

  ghost predicate HistoryBelow(r: Rows, n: TxNum) {
    forall t :: t in r.history ==> t.txnum < n
  }

  /** What the undo records of a batch rely on: txnums are not reused, no block recreates an output
      that is unspent when it is applied, and none spends a coin an earlier block
      of the batch spent. Consensus guarantees both. */
  ghost predicate Undoable(r: Rows, blocks: seq<Block>, n: TxNum) {
    forall i :: 0 <= i < |blocks| ==>
                  && HistoryBelow(ApplyBlocks(r, blocks[..i], n), n + TxCount(blocks[..i]))
                  && FreshFunding(ApplyBlocks(r, blocks[..i], n).utxo, blocks[i].txs)
                  && BlockSpent(blocks[i].txs) !! AllSpentCoins(blocks[..i])
  }

  ghost predicate UndoFor(undo: map<nat, Undo>, r: Rows, blocks: seq<Block>, n: TxNum, i: nat)
    requires i < |blocks|
  {
    && blocks[i].height in undo
    && IsUndo(undo[blocks[i].height],
              ApplyBlocks(r, blocks[..i], n),
              ApplyBlocks(r, blocks[..i + 1], n),
              n + TxCount(blocks[..i]),
              |blocks[i].txs|)
  }

  ghost predicate Consecutive(blocks: seq<Block>) {
    forall i :: 0 <= i < |blocks| ==> blocks[i].height == blocks[0].height + i
  }

  /** `post` is `pre` after applying `blocks` in one batch. */
  ghost predicate Applied(pre: Store, post: Store, blocks: seq<Block>, n: TxNum, keepUndo: bool) {
    && post.rows == ApplyBlocks(pre.rows, blocks, n)
    && (!keepUndo ==> post.undo == pre.undo)
    && (keepUndo ==>
          && post.undo.Keys == pre.undo.Keys + (set i | 0 <= i < |blocks| :: blocks[i].height)
          && (forall h :: h in pre.undo && (forall i :: 0 <= i < |blocks| ==> blocks[i].height != h) ==>
                            post.undo[h] == pre.undo[h])
          && (Undoable(pre.rows, blocks, n) ==> forall i :: 0 <= i < |blocks| ==>
                                                              UndoFor(post.undo, pre.rows, blocks, n, i)))
  }

  lemma {:induction false} TxsIgnoreTip(r: Rows, tip: Option<Tip>, txs: seq<TxRows>, n: TxNum, height: nat)
    ensures ApplyTxs(r.(tip := tip), txs, n, height) == ApplyTxs(r, txs, n, height).(tip := tip)
  {
    if txs != [] {
      TxsIgnoreTip(r, tip, Init(txs), n, height);
    }
  }

  // ------------------------------------------------- the log and its recovery

  /** One committed batch: with a synced write-ahead log record, or without. */
  datatype Entry = Entry(batch: seq<Op>, durable: bool)

  /** `log[..flushed]` is on disk through an (atomic) flush of the memtables. */
  datatype Disk = Disk(base: Store, log: seq<Entry>, flushed: nat)

  function WriteEntries(s: Store, log: seq<Entry>): Store {
    if log == [] then s else WriteAll(WriteEntries(s, Init(log)), Last(log).batch)
  }

  function Visible(d: Disk): Store {
    WriteEntries(d.base, d.log)
  }

  function DurableOnly(log: seq<Entry>): seq<Entry> {
    if log == [] then []
    else if Last(log).durable then DurableOnly(Init(log)) + [Last(log)]
    else DurableOnly(Init(log))
  }

  /** What a restart finds when the first `k` entries had reached disk by a
      flush: those, then every later logged batch replayed on top. */
  function Recovered(d: Disk, k: nat): Store
    requires k <= |d.log|
  {
    WriteEntries(WriteEntries(d.base, d.log[..k]), DurableOnly(d.log[k..]))
  }

  /** No durable write follows an unflushed bulk write. */
  ghost predicate Disciplined(d: Disk) {
    && d.flushed <= |d.log|
    && forall i, j :: d.flushed <= i < j < |d.log| && d.log[j].durable ==> d.log[i].durable
  }

  lemma {:induction false} WriteEntriesConcat(s: Store, a: seq<Entry>, b: seq<Entry>)
    ensures WriteEntries(s, a + b) == WriteEntries(WriteEntries(s, a), b)
    decreases |b|
  {
    if b == [] {
      assert a + b == a;
    } else {
      assert Init(a + b) == a + Init(b);
      WriteEntriesConcat(s, a, Init(b));
    }
  }

  lemma {:induction false} DurableOnlyPrefix(log: seq<Entry>) returns (m: nat)
    requires forall i, j :: 0 <= i < j < |log| && log[j].durable ==> log[i].durable
    ensures m <= |log|
    ensures DurableOnly(log) == log[..m]
    ensures forall i :: 0 <= i < m ==> log[i].durable
    ensures forall i :: m <= i < |log| ==> !log[i].durable
  {
    hide DurableOnly;
    if log == [] {
      m := 0;
      DurableOnlySnoc(log, Entry([], true));
    } else if Last(log).durable {
      m := |log|;
      assert log[|log| - 1].durable;
      DurableOnlyAll(log);
    } else {
      var before := Init(log);
      assert log == before + [Last(log)];
      assert forall i :: 0 <= i < |before| ==> before[i] == log[i];
      m := DurableOnlyPrefix(before);
      DurableOnlySnoc(before, Last(log));
      assert before[..m] == log[..m];
    }
  }

  lemma {:induction false} DurableOnlySnoc(log: seq<Entry>, e: Entry)
    ensures DurableOnly([]) == []
    ensures DurableOnly(log + [e]) == if e.durable then DurableOnly(log) + [e] else DurableOnly(log)
  {
    assert Init(log + [e]) == log;
  }

  lemma {:induction false} DurableOnlyAll(log: seq<Entry>)
    requires forall i :: 0 <= i < |log| ==> log[i].durable
    ensures DurableOnly(log) == log
  {
    hide DurableOnly;
    if log == [] {
      DurableOnlySnoc(log, Entry([], true));
    } else {
      DurableOnlyAll(Init(log));
      assert log == Init(log) + [Last(log)];
      DurableOnlySnoc(Init(log), Last(log));
    }
  }

  /** Under the flush discipline a crash recovers exactly some earlier state of
      the store: the log cut off at a point no flush or sync had passed. */
  lemma {:induction false} CrashIsAPrefix(d: Disk, k: nat) returns (m: nat)
    requires Disciplined(d) && d.flushed <= k <= |d.log|
    ensures k <= m <= |d.log|
    ensures Recovered(d, k) == WriteEntries(d.base, d.log[..m])
    ensures forall i :: k <= i < m ==> d.log[i].durable
    ensures forall i :: m <= i < |d.log| ==> !d.log[i].durable
  {
    hide WriteEntries, DurableOnly;
    var tail := d.log[k..];
    assert forall i, j :: 0 <= i < j < |tail| && tail[j].durable ==> tail[i].durable;
    m := DurableOnlyPrefix(tail);
    assert d.log[..k] + tail[..m] == d.log[..k + m];
    WriteEntriesConcat(d.base, d.log[..k], tail[..m]);
    forall i | k + m <= i < |d.log| ensures !d.log[i].durable {
      assert tail[i - k] == d.log[i];
    }
    forall i | k <= i < k + m ensures d.log[i].durable {
      assert tail[i - k] == d.log[i];
    }
    m := k + m;
  }
}
