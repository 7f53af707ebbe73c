/** The store's writer: block application as blind puts and deletes in one
    write batch, undo records, rollback, pruning and flushing. */
module Db {
  import opened Types
  import opened Ledger
  import opened Storage

  datatype Durability = Bulk | Durable

  /** `Panicked`: an assertion of the source fails and nothing is written. */
  datatype DbError = Io | Exhausted(height: nat) | Panicked | NoUndo(height: nat) | Mismatch(height: nat)

  // --------------------------------------- what a batch under way knows

  /** The (key, value) pairs among `keys` found in the batch, else committed. */
  function Known(batch: map<Coin, UtxoVal>, committed: map<Coin, UtxoVal>, keys: set<Coin>): map<Coin, UtxoVal> {
    map k | k in keys && (k in batch || k in committed) :: if k in batch then batch[k] else committed[k]
  }

  /** `batch` holds what the batch funded and has not spent since; every other
      coin is unspent now iff it is committed and the batch did not spend it. */
  ghost predicate BatchKnows(batch: map<Coin, UtxoVal>, committed: map<Coin, UtxoVal>, now: map<Coin, UtxoVal>,
                             spent: set<Coin>) {
    && (forall k :: k in batch ==> k in now && now[k] == batch[k])
    && (forall k :: k !in batch ==> (k in now <==> k in committed && k !in spent))
    && (forall k :: k !in batch && k in now && k in committed ==> now[k] == committed[k])
  }

  /** `added` and `deleted` follow the difference between `pre`, the coins
      before the block, and `now`; `deleted` runs ahead to the whole block. */
  ghost predicate Tracks(added: set<Coin>, deleted: map<Coin, UtxoVal>, pre: map<Coin, UtxoVal>,
                         now: map<Coin, UtxoVal>, spent: set<Coin>, all: set<Coin>) {
    && added == now.Keys - pre.Keys
    && pre.Keys * now.Keys == pre.Keys - spent
    && deleted == pre - (pre.Keys - all)
  }

  lemma {:induction false} FundAllAgree(u: map<Coin, UtxoVal>, v: map<Coin, UtxoVal>, txid: Txid, fs: seq<Funded>,
                                        height: nat)
    ensures forall c :: c in (set f | f in fs :: CoinOf(txid, f)) ==>
                          c in FundAll(u, txid, fs, height) && c in FundAll(v, txid, fs, height)
                          && FundAll(u, txid, fs, height)[c] == FundAll(v, txid, fs, height)[c]
  {
    FundAllKeys(u, txid, fs, height);
    FundAllKeys(v, txid, fs, height);
    if fs != [] {
      FundAllAgree(u, v, txid, Init(fs), height);
      assert fs == Init(fs) + [Last(fs)];
    }
  }

  lemma {:induction false} BatchKnowsTx(batch: map<Coin, UtxoVal>, committed: map<Coin, UtxoVal>,
                                        now: map<Coin, UtxoVal>, spent: set<Coin>, tx: TxRows, height: nat)
    requires BatchKnows(batch, committed, now, spent)
    ensures BatchKnows(FundAll(batch, tx.txid, tx.funded, height) - SpentCoins(tx), committed,
                       FundAll(now, tx.txid, tx.funded, height) - SpentCoins(tx), spent + SpentCoins(tx))
  {
    FundAllKeys(batch, tx.txid, tx.funded, height);
    FundAllKeys(now, tx.txid, tx.funded, height);
    FundAllAgree(batch, now, tx.txid, tx.funded, height);
  }

  lemma {:induction false} TracksTx(added: set<Coin>, deleted: map<Coin, UtxoVal>, pre: map<Coin, UtxoVal>,
                                    now: map<Coin, UtxoVal>, spent: set<Coin>, all: set<Coin>, tx: TxRows, height: nat)
    requires Tracks(added, deleted, pre, now, spent, all)
    requires FundedCoins(tx) !! pre.Keys
    ensures Tracks((added + FundedCoins(tx)) - SpentCoins(tx),
                   deleted - ((added + FundedCoins(tx)) * SpentCoins(tx)),
                   pre, FundAll(now, tx.txid, tx.funded, height) - SpentCoins(tx), spent + SpentCoins(tx), all)
  {
    FundAllKeys(now, tx.txid, tx.funded, height);
    assert deleted - ((added + FundedCoins(tx)) * SpentCoins(tx)) == deleted;
    var now' := FundAll(now, tx.txid, tx.funded, height) - SpentCoins(tx);
    forall c | c in pre
      ensures c in now' <==> c !in spent + SpentCoins(tx)
    {
      assert c in now <==> c in pre.Keys * now.Keys;
    }
  }

  // ------------------------------------------------- one transaction's rows

  /** The puts for the outputs a transaction funds. */
  method FundRows(ghost s: Store, tx: TxRows, height: nat, keepUndo: bool, wb: seq<Op>, batch: map<Coin, UtxoVal>,
                  added: set<Coin>)
    returns (wb': seq<Op>, batch': map<Coin, UtxoVal>, added': set<Coin>, touched: set<Program>)
    ensures WriteAll(s, wb') ==
            WriteAll(s, wb).(rows :=
            WriteAll(s, wb).rows.(utxo := FundAll(WriteAll(s, wb).rows.utxo, tx.txid, tx.funded, height)))
    ensures keepUndo ==> batch' == FundAll(batch, tx.txid, tx.funded, height) && added' == added + FundedCoins(tx)
    ensures touched == set f | f in tx.funded :: f.program
  {
    hide WriteAll;
    wb', batch', added', touched := wb, batch, added, {};
    for j := 0 to |tx.funded|
      invariant WriteAll(s, wb') ==
                WriteAll(s, wb).(rows :=
                WriteAll(s, wb).rows.(utxo := FundAll(WriteAll(s, wb).rows.utxo, tx.txid, tx.funded[..j], height)))
      invariant keepUndo ==> batch' == FundAll(batch, tx.txid, tx.funded[..j], height)
      invariant keepUndo ==> added' == added + set f | f in tx.funded[..j] :: CoinOf(tx.txid, f)
      invariant touched == set f | f in tx.funded[..j] :: f.program
    {
      var f := tx.funded[j];
      var k, v := CoinOf(tx.txid, f), UtxoVal(f.value, height);
      touched := touched + {f.program};
      WriteMore(s, wb', PutCoin(k, v));
      wb' := wb' + [PutCoin(k, v)];
      if keepUndo {
        batch' := batch'[k := v];
        added' := added' + {k};
      }
      assert tx.funded[..j + 1] == tx.funded[..j] + [f];
      assert Init(tx.funded[..j + 1]) == tx.funded[..j];
    }
    assert tx.funded[..|tx.funded|] == tx.funded;
  }

  /** The deletes for the outputs a transaction spends. */
  method SpendRows(ghost s: Store, tx: TxRows, keepUndo: bool, wb: seq<Op>, batch: map<Coin, UtxoVal>, added: set<Coin>,
                   deleted: seq<(Coin, UtxoVal)>)
    returns (wb': seq<Op>, batch': map<Coin, UtxoVal>, added': set<Coin>, deleted': seq<(Coin, UtxoVal)>,
             touched: set<Program>)
    ensures WriteAll(s, wb') ==
            WriteAll(s, wb).(rows := WriteAll(s, wb).rows.(utxo := WriteAll(s, wb).rows.utxo - SpentCoins(tx)))
    ensures keepUndo ==> batch' == batch - SpentCoins(tx) && added' == added - SpentCoins(tx)
    ensures keepUndo ==> Restored(deleted') == Restored(deleted) - (added * SpentCoins(tx))
    ensures touched == set x | x in tx.spent :: x.program
  {
    hide WriteAll, Restored, Without;
    wb', batch', added', deleted', touched := wb, batch, added, deleted, {};
    ghost var done: set<Coin> := {};
    for j := 0 to |tx.spent|
      invariant done == set x | x in tx.spent[..j] :: SpentCoin(x)
      invariant WriteAll(s, wb') ==
                WriteAll(s, wb).(rows := WriteAll(s, wb).rows.(utxo := WriteAll(s, wb).rows.utxo - done))
      invariant keepUndo ==> batch' == batch - done && added' == added - done
      invariant keepUndo ==> Restored(deleted') == Restored(deleted) - (added * done)
      invariant touched == set x | x in tx.spent[..j] :: x.program
    {
      var x := tx.spent[j];
      var k := SpentCoin(x);
      touched := touched + {x.program};
      WriteMore(s, wb', DelCoin(k));
      wb' := wb' + [DelCoin(k)];
      if keepUndo {
        batch' := batch' - {k};
        if k in added' {
          added' := added' - {k};
          RestoredWithout(deleted', k);
          deleted' := Without(deleted', k);
        }
      }
      assert tx.spent[..j + 1] == tx.spent[..j] + [x];
      done := done + {k};
    }
    assert tx.spent[..|tx.spent|] == tx.spent;
  }

  /** The history puts of a transaction's programs, in any order. */
  method TouchRows(ghost s: Store, touched: set<Program>, n: TxNum, wb: seq<Op>, history: seq<Touch>)
    returns (wb': seq<Op>, history': seq<Touch>)
    ensures WriteAll(s, wb') ==
            WriteAll(s, wb).(rows :=
            WriteAll(s, wb).rows.(history := WriteAll(s, wb).rows.history + set p | p in touched :: Touch(p, n)))
    ensures ToSet(history') == ToSet(history) + set p | p in touched :: Touch(p, n)
  {
    hide WriteAll;
    wb', history' := wb, history;
    var rest := touched;
    ghost var done: set<Touch> := {};
    while rest != {}
      invariant rest <= touched
      invariant done == set p | p in touched - rest :: Touch(p, n)
      invariant WriteAll(s, wb') ==
                WriteAll(s, wb).(rows := WriteAll(s, wb).rows.(history := WriteAll(s, wb).rows.history + done))
      invariant ToSet(history') == ToSet(history) + done
      decreases rest
    {
      var p :| p in rest;
      WriteMore(s, wb', PutTouch(Touch(p, n)));
      wb' := wb' + [PutTouch(Touch(p, n))];
      ToSetMore(history', Touch(p, n));
      history' := history' + [Touch(p, n)];
      assert touched - (rest - {p}) == (touched - rest) + {p};
      done := done + {Touch(p, n)};
      rest := rest - {p};
    }
    assert touched - rest == touched;
  }

  method TxBatch(ghost s: Store, tx: TxRows, n: TxNum, height: nat, keepUndo: bool, wb: seq<Op>,
                 batch: map<Coin, UtxoVal>, added: set<Coin>, deleted: seq<(Coin, UtxoVal)>, history: seq<Touch>)
    returns (wb': seq<Op>, batch': map<Coin, UtxoVal>, added': set<Coin>, deleted': seq<(Coin, UtxoVal)>,
             history': seq<Touch>)
    ensures WriteAll(s, wb') == WriteAll(s, wb).(rows := ApplyTx(WriteAll(s, wb).rows, tx, n, height))
    ensures keepUndo ==>
              && batch' == FundAll(batch, tx.txid, tx.funded, height) - SpentCoins(tx)
              && added' == (added + FundedCoins(tx)) - SpentCoins(tx)
              && Restored(deleted') == Restored(deleted) - ((added + FundedCoins(tx)) * SpentCoins(tx))
              && ToSet(history') == ToSet(history) + set p | p in Touched(tx) :: Touch(p, n)
  {
    hide WriteAll, Restored;
    WriteMore(s, wb, PutTxid(n, tx.txid));
    wb' := wb + [PutTxid(n, tx.txid)];
    var touchedByFunding, touchedBySpending;
    wb', batch', added', touchedByFunding := FundRows(s, tx, height, keepUndo, wb', batch, added);
    wb', batch', added', deleted', touchedBySpending := SpendRows(s, tx, keepUndo, wb', batch', added', deleted);
    wb', history' := TouchRows(s, touchedByFunding + touchedBySpending, n, wb', history);
    assert touchedByFunding + touchedBySpending == Touched(tx);
  }

  method Collect<T(==)>(xs: set<T>) returns (s: seq<T>)
    ensures ToSet(s) == xs
  {
    s := [];
    var rest := xs;
    while rest != {}
      invariant rest <= xs
      invariant ToSet(s) == xs - rest
      decreases rest
    {
      var x :| x in rest;
      ToSetMore(s, x);
      s := s + [x];
      rest := rest - {x};
    }
  }

  ghost predicate BatchUndoable(pre: Rows, b: Block, first: TxNum, spent: set<Coin>) {
    HistoryBelow(pre, first) && FreshFunding(pre.utxo, b.txs) && BlockSpent(b.txs) !! spent
  }

  /** Coins the batch spent before are not spent again, so looking a spent
      coin up (batch first, then committed) finds its value before the block. */
  lemma {:induction false} KnownIsPre(batch: map<Coin, UtxoVal>, committed: map<Coin, UtxoVal>, pre: map<Coin, UtxoVal>,
                                      spent: set<Coin>, keys: set<Coin>)
    requires BatchKnows(batch, committed, pre, spent) && keys !! spent
    ensures Known(batch, committed, keys) == pre - (pre.Keys - keys)
  {
  }

  /** The spent coins of one transaction, looked up once each. */
  method SpentOfTx(tx: TxRows, batch: map<Coin, UtxoVal>, committed: map<Coin, UtxoVal>, out: seq<(Coin, UtxoVal)>,
                   seen: set<Coin>)
    returns (out': seq<(Coin, UtxoVal)>, seen': set<Coin>)
    requires Restored(out) == Known(batch, committed, seen)
    ensures seen' == seen + SpentCoins(tx)
    ensures Restored(out') == Known(batch, committed, seen')
  {
    hide Restored;
    out', seen' := out, seen;
    for j := 0 to |tx.spent|
      invariant seen' == seen + set x | x in tx.spent[..j] :: SpentCoin(x)
      invariant Restored(out') == Known(batch, committed, seen')
    {
      var k := SpentCoin(tx.spent[j]);
      assert tx.spent[..j + 1] == tx.spent[..j] + [tx.spent[j]];
      if k !in seen' {
        if k in batch || k in committed {
          var v := if k in batch then batch[k] else committed[k];
          RestoredMore(out', k, v);
          out' := out' + [(k, v)];
        }
        seen' := seen' + {k};
      }
    }
    assert tx.spent[..|tx.spent|] == tx.spent;
  }

  ghost predicate UndoUnderWay(b: Block, pre: Rows, now: Rows, i: nat, added: set<Coin>, deleted: seq<(Coin, UtxoVal)>,
                               history: seq<Touch>)
    requires i <= |b.txs|
  {
    && Tracks(added, Restored(deleted), pre.utxo, now.utxo, BlockSpent(b.txs[..i]), BlockSpent(b.txs))
    && ToSet(history) == now.history - pre.history
  }

  /** `wb` extends `base` by the first `i` transactions of `b`. */
  ghost predicate TxsBatched(s: Store, base: Store, wb: seq<Op>, b: Block, i: nat, first: TxNum, keepUndo: bool,
                             batch: map<Coin, UtxoVal>, spent: set<Coin>,
                             added: set<Coin>, deleted: seq<(Coin, UtxoVal)>, history: seq<Touch>)
    requires i <= |b.txs|
  {
    var now := ApplyTxs(base.rows, b.txs[..i], first, b.height);
    && WriteAll(s, wb) == base.(rows := now)
    && (keepUndo ==> BatchKnows(batch, s.rows.utxo, now.utxo, spent + BlockSpent(b.txs[..i])))
    && (keepUndo && BatchUndoable(base.rows, b, first, spent) ==>
          UndoUnderWay(b, base.rows, now, i, added, deleted, history))
  }

  lemma {:induction false} BlockStart(s: Store, wb: seq<Op>, b: Block, first: TxNum, keepUndo: bool,
                                      batch: map<Coin, UtxoVal>, deleted: seq<(Coin, UtxoVal)>, spent: set<Coin>)
    requires keepUndo ==> BatchKnows(batch, s.rows.utxo, WriteAll(s, wb).rows.utxo, spent)
    requires keepUndo ==> Restored(deleted) == Known(batch, s.rows.utxo, BlockSpent(b.txs))
    ensures TxsBatched(s, WriteAll(s, wb), wb, b, 0, first, keepUndo, batch, spent, {}, deleted, [])
  {
    var pre := WriteAll(s, wb).rows;
    assert spent + BlockSpent(b.txs[..0]) == spent;
    if keepUndo && BatchUndoable(pre, b, first, spent) {
      KnownIsPre(batch, s.rows.utxo, pre.utxo, spent, BlockSpent(b.txs));
    }
  }

  lemma {:induction false} FundedInBlock(txs: seq<TxRows>, i: nat)
    requires i < |txs|
    ensures FundedCoins(txs[i]) <= BlockFunded(txs)
  {
    if i < |txs| - 1 {
      FundedInBlock(Init(txs), i);
    }
  }

  /** One transaction's part of the batch, keeping the undo record in step. */
  method TxStep(ghost s: Store, ghost base: Store, b: Block, i: nat, first: TxNum, keepUndo: bool,
                wb: seq<Op>, batch: map<Coin, UtxoVal>, added: set<Coin>, deleted: seq<(Coin, UtxoVal)>,
                history: seq<Touch>, ghost spent: set<Coin>)
    returns (wb': seq<Op>, batch': map<Coin, UtxoVal>, added': set<Coin>, deleted': seq<(Coin, UtxoVal)>,
             history': seq<Touch>)
    requires i < |b.txs|
    requires TxsBatched(s, base, wb, b, i, first, keepUndo, batch, spent, added, deleted, history)
    ensures TxsBatched(s, base, wb', b, i + 1, first, keepUndo, batch', spent, added', deleted', history')
  {
    var tx := b.txs[i];
    ghost var now := ApplyTxs(base.rows, b.txs[..i], first, b.height);
    assert Init(b.txs[..i + 1]) == b.txs[..i];
    if keepUndo {
      BatchKnowsTx(batch, s.rows.utxo, now.utxo, spent + BlockSpent(b.txs[..i]), tx, b.height);
      assert spent + BlockSpent(b.txs[..i]) + SpentCoins(tx) == spent + BlockSpent(b.txs[..i + 1]);
      if BatchUndoable(base.rows, b, first, spent) {
        FundedInBlock(b.txs, i);
        TracksTx(added, Restored(deleted), base.rows.utxo, now.utxo, BlockSpent(b.txs[..i]), BlockSpent(b.txs), tx,
                 b.height);
      }
    }
    wb', batch', added', deleted', history' :=
      TxBatch(s, tx, first + i, b.height, keepUndo, wb, batch, added, deleted, history);
  }

  /** The effect of one block's part of a batch. */
  ghost predicate BlockBatched(s: Store, wb: seq<Op>, wb': seq<Op>, b: Block, first: TxNum, keepUndo: bool,
                               batch': map<Coin, UtxoVal>, spent: set<Coin>, undo: Undo) {
    var pre, post := WriteAll(s, wb), WriteAll(s, wb');
    && post.rows == ApplyBlock(pre.rows, b, first).(tip := pre.rows.tip)
    && post.undo == (if keepUndo then pre.undo[b.height := undo] else pre.undo)
    && (keepUndo ==> BatchKnows(batch', s.rows.utxo, post.rows.utxo, spent + BlockSpent(b.txs)))
    && (keepUndo && BatchUndoable(pre.rows, b, first, spent) ==> IsUndo(undo, pre.rows, post.rows, first, |b.txs|))
  }

  /** The transactions' part of a block's batch. */
  method TxsBatch(ghost s: Store, b: Block, first: TxNum, keepUndo: bool, wb: seq<Op>, batch: map<Coin, UtxoVal>,
                  dels: seq<(Coin, UtxoVal)>, ghost spent: set<Coin>)
    returns (err: Option<DbError>, wb': seq<Op>, batch': map<Coin, UtxoVal>, added: set<Coin>,
             deleted: seq<(Coin, UtxoVal)>, history: seq<Touch>)
    requires keepUndo ==> BatchKnows(batch, s.rows.utxo, WriteAll(s, wb).rows.utxo, spent)
    requires keepUndo ==> Restored(dels) == Known(batch, s.rows.utxo, BlockSpent(b.txs))
    ensures err.None? <==> b.txs == [] || first + |b.txs| <= MAX_TXNUM + 1
    ensures err.Some? ==> err.value == Exhausted(b.height)
    ensures err.None? ==>
              TxsBatched(s, WriteAll(s, wb), wb', b, |b.txs|, first, keepUndo, batch', spent, added, deleted, history)
  {
    hide TxsBatched;
    wb', batch', err, added, deleted, history := wb, batch, None, {}, dels, [];
    BlockStart(s, wb, b, first, keepUndo, batch, deleted, spent);
    for i := 0 to |b.txs|
      invariant err.None?
      invariant TxsBatched(s, WriteAll(s, wb), wb', b, i, first, keepUndo, batch', spent, added, deleted, history)
      invariant i > 0 ==> first + i <= MAX_TXNUM + 1
    {
      if first + i > MAX_TXNUM {
        err := Some(Exhausted(b.height));
        return;
      }
      wb', batch', added, deleted, history :=
        TxStep(s, WriteAll(s, wb), b, i, first, keepUndo, wb', batch', added, deleted, history, spent);
    }
  }

  lemma {:induction false} FinishBlock(s: Store, wb: seq<Op>, wbTxs: seq<Op>, wb': seq<Op>, b: Block, first: TxNum,
                                       keepUndo: bool, batch': map<Coin, UtxoVal>, spent: set<Coin>,
                                       added: set<Coin>, deleted: seq<(Coin, UtxoVal)>, history: seq<Touch>, undo: Undo)
    requires TxsBatched(s, WriteAll(s, wb), wbTxs, b, |b.txs|, first, keepUndo, batch', spent, added, deleted, history)
    requires keepUndo ==>
               undo.firstTxnum == first && undo.nTxs == |b.txs| && undo.addedHistory == history &&
               ToSet(undo.addedUtxo) == added && undo.deletedUtxo == deleted
    requires var blocked := Write(WriteAll(s, wbTxs), PutBlock(b.height, RecOf(b, first)));
             WriteAll(s, wb') == if keepUndo then Write(blocked, PutUndo(b.height, undo)) else blocked
    ensures BlockBatched(s, wb, wb', b, first, keepUndo, batch', spent, undo)
  {
    var pre := WriteAll(s, wb);
    ApplyTxsKeeps(pre.rows, b.txs, first, b.height);
    assert b.txs[..|b.txs|] == b.txs;
    if keepUndo && BatchUndoable(pre.rows, b, first, spent) {
      DeletedIsDifference(deleted, added, pre.rows.utxo, ApplyTxs(pre.rows, b.txs, first, b.height).utxo,
                          BlockSpent(b.txs));
    }
  }

  lemma {:induction false} DeletedIsDifference(deleted: seq<(Coin, UtxoVal)>, added: set<Coin>, pre: map<Coin, UtxoVal>,
                                               now: map<Coin, UtxoVal>, all: set<Coin>)
    requires Tracks(added, Restored(deleted), pre, now, all, all)
    ensures Restored(deleted) == pre - now.Keys
  {
    forall c | c in pre
      ensures c in now <==> c !in all
    {
      assert c in now <==> c in pre.Keys * now.Keys;
    }
  }

  /** The batch holds the first `i` blocks, `meta.tip` still to be written. */
  ghost predicate BatchedTo(s: Store, wb: seq<Op>, blocks: seq<Block>, i: nat, n: TxNum, keepUndo: bool,
                            batch: map<Coin, UtxoVal>)
    requires i <= |blocks|
  {
    var now := WriteAll(s, wb);
    && now.rows == ApplyBlocks(s.rows, blocks[..i], n).(tip := s.rows.tip)
    && (!keepUndo ==> now.undo == s.undo)
    && (keepUndo ==>
          && now.undo.Keys == s.undo.Keys + (set j | 0 <= j < i :: blocks[j].height)
          && (forall h :: h in s.undo && (forall j :: 0 <= j < i ==> blocks[j].height != h) ==>
                            now.undo[h] == s.undo[h])
          && (Undoable(s.rows, blocks, n) ==> forall j :: 0 <= j < i ==> UndoFor(now.undo, s.rows, blocks, n, j))
          && BatchKnows(batch, s.rows.utxo, now.rows.utxo, AllSpentCoins(blocks[..i])))
  }

  /** `recs` are the `blocks` rows of `blocks`, in order. */
  ghost predicate Recorded(recs: seq<BlockRec>, blocks: seq<Block>, n: TxNum) {
    |recs| == |blocks| && forall i :: 0 <= i < |blocks| ==> recs[i] == RecOf(blocks[i], n + TxCount(blocks[..i]))
  }

  lemma {:induction false} RecordMore(recs: seq<BlockRec>, blocks: seq<Block>, i: nat, n: TxNum)
    requires i < |blocks| && Recorded(recs, blocks[..i], n)
    ensures TxCount(blocks[..i + 1]) == TxCount(blocks[..i]) + |blocks[i].txs|
    ensures Recorded(recs + [RecOf(blocks[i], n + TxCount(blocks[..i]))], blocks[..i + 1], n)
  {
    assert Init(blocks[..i + 1]) == blocks[..i];
    var recs' := recs + [RecOf(blocks[i], n + TxCount(blocks[..i]))];
    forall j | 0 <= j <= i
      ensures recs'[j] == RecOf(blocks[..i + 1][j], n + TxCount(blocks[..i + 1][..j]))
    {
      assert blocks[..i + 1][..j] == blocks[..j];
      if j < i {
        assert blocks[..i][..j] == blocks[..j];
      }
    }
  }

  lemma {:induction false} FitsMore(blocks: seq<Block>, i: nat, n: TxNum)
    requires i < |blocks| && Fits(blocks[..i], n)
    requires n + TxCount(blocks[..i]) <= MAX_TXNUM && n + TxCount(blocks[..i]) + |blocks[i].txs| <= MAX_TXNUM + 1
    ensures Fits(blocks[..i + 1], n)
  {
    var upTo := blocks[..i + 1];
    forall j | 0 <= j <= i
      ensures FitsAt(upTo, n, j)
    {
      assert upTo[..j] == blocks[..j];
      if j < i {
        assert FitsAt(blocks[..i], n, j);
        assert blocks[..i][..j] == blocks[..j];
      }
    }
  }

  lemma {:induction false} ExtendRows(s: Store, wb: seq<Op>, wb': seq<Op>, blocks: seq<Block>, i: nat, n: TxNum,
                                      keepUndo: bool, batch: map<Coin, UtxoVal>, batch': map<Coin, UtxoVal>, undo: Undo)
    requires i < |blocks|
    requires BatchedTo(s, wb, blocks, i, n, keepUndo, batch)
    requires BlockBatched(s, wb, wb', blocks[i], n +
                          TxCount(blocks[..i]), keepUndo, batch', AllSpentCoins(blocks[..i]), undo)
    ensures WriteAll(s, wb').rows == ApplyBlocks(s.rows, blocks[..i + 1], n).(tip := s.rows.tip)
    ensures AllSpentCoins(blocks[..i + 1]) == AllSpentCoins(blocks[..i]) + BlockSpent(blocks[i].txs)
  {
    assert Init(blocks[..i + 1]) == blocks[..i];
    TxsIgnoreTip(ApplyBlocks(s.rows, blocks[..i], n), s.rows.tip, blocks[i].txs, n +
                 TxCount(blocks[..i]), blocks[i].height);
  }

  lemma {:induction false} ExtendUndo(s: Store, wb: seq<Op>, wb': seq<Op>, blocks: seq<Block>, i: nat, n: TxNum,
                                      batch: map<Coin, UtxoVal>, batch': map<Coin, UtxoVal>, undo: Undo, j: nat)
    requires j <= i < |blocks| && Consecutive(blocks)
    requires BatchedTo(s, wb, blocks, i, n, true, batch)
    requires BlockBatched(s, wb, wb', blocks[i], n +
                          TxCount(blocks[..i]), true, batch', AllSpentCoins(blocks[..i]), undo)
    requires Undoable(s.rows, blocks, n)
    ensures UndoFor(WriteAll(s, wb').undo, s.rows, blocks, n, j)
  {
    if j < i {
      assert UndoFor(WriteAll(s, wb).undo, s.rows, blocks, n, j);
    } else {
      ExtendRows(s, wb, wb', blocks, i, n, true, batch, batch', undo);
      assert BatchUndoable(WriteAll(s, wb).rows, blocks[i], n + TxCount(blocks[..i]), AllSpentCoins(blocks[..i]));
    }
  }

  lemma {:induction false} ExtendBatch(s: Store, wb: seq<Op>, wb': seq<Op>, blocks: seq<Block>, i: nat, n: TxNum,
                                       keepUndo: bool, batch: map<Coin, UtxoVal>, batch': map<Coin, UtxoVal>,
                                       undo: Undo)
    requires i < |blocks| && Consecutive(blocks)
    requires BatchedTo(s, wb, blocks, i, n, keepUndo, batch)
    requires BlockBatched(s, wb, wb', blocks[i], n +
                          TxCount(blocks[..i]), keepUndo, batch', AllSpentCoins(blocks[..i]), undo)
    ensures BatchedTo(s, wb', blocks, i + 1, n, keepUndo, batch')
  {
    hide WriteAll, ApplyBlocks, ApplyTxs, TxCount, AllSpentCoins, BlockSpent, UndoFor, Undoable, BatchKnows,
      BatchUndoable;
    ExtendRows(s, wb, wb', blocks, i, n, keepUndo, batch, batch', undo);
    if keepUndo && Undoable(s.rows, blocks, n) {
      forall j | 0 <= j <= i
        ensures UndoFor(WriteAll(s, wb').undo, s.rows, blocks, n, j)
      {
        ExtendUndo(s, wb, wb', blocks, i, n, batch, batch', undo, j);
      }
    }
  }

  lemma {:induction false} StartBatch(s: Store, blocks: seq<Block>, n: TxNum, keepUndo: bool)
    ensures BatchedTo(s, [], blocks, 0, n, keepUndo, map[])
    ensures Recorded([], blocks[..0], n) && Fits(blocks[..0], n) && TxCount(blocks[..0]) == 0
  {
  }

  lemma {:induction false} FinishBatch(s: Store, wb: seq<Op>, blocks: seq<Block>, n: TxNum, keepUndo: bool,
                                       batch: map<Coin, UtxoVal>)
    requires BatchedTo(s, wb, blocks, |blocks|, n, keepUndo, batch)
    ensures Applied(s, WriteAll(s, if blocks == [] then wb
                                else wb + [SetTip(Some(Tip(Last(blocks).height, Last(blocks).hash)))]), blocks, n,
                    keepUndo)
  {
    assert blocks[..|blocks|] == blocks;
    if blocks != [] {
      WriteMore(s, wb, SetTip(Some(Tip(Last(blocks).height, Last(blocks).hash))));
    }
  }

  method DeleteTouches(ghost s: Store, wb: seq<Op>, ts: seq<Touch>) returns (wb': seq<Op>)
    ensures WriteAll(s, wb') ==
            WriteAll(s, wb).(rows := WriteAll(s, wb).rows.(history := WriteAll(s, wb).rows.history - ToSet(ts)))
  {
    hide WriteAll;
    wb' := wb;
    ghost var s0 := WriteAll(s, wb);
    for i := 0 to |ts|
      invariant WriteAll(s, wb') == s0.(rows := s0.rows.(history := s0.rows.history - ToSet(ts[..i])))
    {
      WriteMore(s, wb', DelTouch(ts[i]));
      ToSetMore(ts[..i], ts[i]);
      assert ts[..i + 1] == ts[..i] + [ts[i]];
      wb' := wb' + [DelTouch(ts[i])];
    }
    assert ts[..|ts|] == ts;
  }

  method DeleteCoins(ghost s: Store, wb: seq<Op>, cs: seq<Coin>) returns (wb': seq<Op>)
    ensures WriteAll(s, wb') ==
            WriteAll(s, wb).(rows := WriteAll(s, wb).rows.(utxo := WriteAll(s, wb).rows.utxo - ToSet(cs)))
  {
    hide WriteAll;
    wb' := wb;
    ghost var s0 := WriteAll(s, wb);
    for i := 0 to |cs|
      invariant WriteAll(s, wb') == s0.(rows := s0.rows.(utxo := s0.rows.utxo - ToSet(cs[..i])))
    {
      WriteMore(s, wb', DelCoin(cs[i]));
      ToSetMore(cs[..i], cs[i]);
      assert cs[..i + 1] == cs[..i] + [cs[i]];
      wb' := wb' + [DelCoin(cs[i])];
    }
    assert cs[..|cs|] == cs;
  }

  method RestoreCoins(ghost s: Store, wb: seq<Op>, cs: seq<(Coin, UtxoVal)>) returns (wb': seq<Op>)
    ensures WriteAll(s, wb') ==
            WriteAll(s, wb).(rows := WriteAll(s, wb).rows.(utxo := WriteAll(s, wb).rows.utxo + Restored(cs)))
  {
    hide WriteAll;
    wb' := wb;
    ghost var s0 := WriteAll(s, wb);
    for i := 0 to |cs|
      invariant WriteAll(s, wb') == s0.(rows := s0.rows.(utxo := s0.rows.utxo + Restored(cs[..i])))
    {
      var op := PutCoin(cs[i].0, cs[i].1);
      WriteMore(s, wb', op);
      assert Init(cs[..i + 1]) == cs[..i];
      wb' := wb' + [op];
    }
    assert cs[..|cs|] == cs;
  }

  /** The history and utxo part of a rollback batch. */
  method RollbackRowOps(ghost s: Store, undo: Undo) returns (wb: seq<Op>)
    ensures WriteAll(s, wb) == s.(rows := s.rows.(history := s.rows.history - ToSet(undo.addedHistory),
                               utxo := (s.rows.utxo - ToSet(undo.addedUtxo)) +
                               Restored(undo.deletedUtxo)))
  {
    wb := DeleteTouches(s, [], undo.addedHistory);
    wb := DeleteCoins(s, wb, undo.addedUtxo);
    wb := RestoreCoins(s, wb, undo.deletedUtxo);
  }

  lemma {:induction false} RollbackOps(s: Store, wb: seq<Op>, undo: Undo, height: nat, rec: BlockRec,
                                       newTip: Option<Tip>)
    requires WriteAll(s, wb) ==
             s.(rows := s.rows.(txids := WithoutRange(s.rows.txids, rec.firstTxnum, rec.firstTxnum + rec.nTxs),
             history := s.rows.history - ToSet(undo.addedHistory),
             utxo := (s.rows.utxo - ToSet(undo.addedUtxo)) +
             Restored(undo.deletedUtxo)))
    ensures WriteAll(s, wb + [DelBlock(height)] + [DelUndo(height)] + [SetTip(newTip)])
         == Store(RollbackRows(s.rows, undo, height, rec, newTip), s.undo - {height})
  {
    hide WriteAll;
    WriteMore(s, wb, DelBlock(height));
    WriteMore(s, wb + [DelBlock(height)], DelUndo(height));
    WriteMore(s, wb + [DelBlock(height)] + [DelUndo(height)], SetTip(newTip));
  }

  ghost predicate LoggedBatch(s: Store, d: Disk, s': Store, d': Disk, durable: bool, wb: seq<Op>) {
    s' == WriteAll(s, wb) && d' == d.(log := d.log + [Entry(wb, durable)])
  }

  /** One batch took the store from `s` to `s'` and was appended to the log. */
  ghost predicate Logged(s: Store, d: Disk, s': Store, d': Disk, durable: bool) {
    exists wb :: LoggedBatch(s, d, s', d', durable, wb)
  }

  /** The exclusive end of a non-empty txnum range fits its key. */
  predicate EndFits(rec: BlockRec) {
    rec.nTxs == 0 || rec.firstTxnum + rec.nTxs <= MAX_TXNUM
  }

  /** Of the blocks `Apply` takes, `Rollback` cannot take back exactly those
      whose last transaction has the largest txnum. */
  lemma {:induction false} StuckWhen(b: Block, n: TxNum)
    requires Fits([b], n)
    ensures !EndFits(RecOf(b, n)) <==> b.txs != [] && n + |b.txs| - 1 == MAX_TXNUM
  {
    assert [b][..0] == [];
    assert FitsAt([b], n, 0);
  }

  /** One transaction numbered `MAX_TXNUM`: applied, and stuck. */
  lemma {:induction false} StuckBlock() returns (b: Block)
    ensures Consecutive([b]) && Fits([b], MAX_TXNUM) && !EndFits(RecOf(b, MAX_TXNUM))
  {
    b := Block(0, 1, 0, 0, [TxRows(1, [Funded(7, 0, 1)], [])]);
    assert [b][..0] == [];
    assert FitsAt([b], MAX_TXNUM, 0);
  }

  /** The record and the block row name the same txnums. */
  predicate Covers(undo: Undo, rec: BlockRec) {
    (undo.firstTxnum, undo.nTxs) == (rec.firstTxnum, rec.nTxs)
  }

  /** What is left of `healthy` operations after one that succeeded or not. */
  function Left(healthy: nat, ok: bool): int {
    if ok then healthy - 1 else healthy
  }

  class Db {
    /** The store as reads see it. */
    var store: Store
    /** What is durable of it. */
    var disk: Disk
    /** Writes and flushes that succeed before the device fails. */
    var healthy: nat

    ghost predicate Valid()
      reads this
    {
      disk.flushed <= |disk.log| && store == Visible(disk)
    }

    constructor (recovered: Store, healthy: nat)
      ensures Valid() && store == recovered && disk == Disk(recovered, [], 0) && this.healthy == healthy
    {
      store, disk, this.healthy := recovered, Disk(recovered, [], 0), healthy;
    }

    /** `write_opt`: the whole batch or nothing. */
    method Commit(wb: seq<Op>, d: Durability) returns (ok: bool)
      requires Valid()
      modifies this
      ensures Valid()
      ensures ok == (old(healthy) > 0) && healthy == Left(old(healthy), ok)
      ensures !ok ==> store == old(store) && disk == old(disk)
      ensures ok ==> store == WriteAll(old(store), wb) && Logged(old(store), old(disk), store, disk, d == Durable)
    {
      if healthy == 0 {
        return false;
      }
      var e := Entry(wb, d == Durable);
      ghost var before := disk;
      assert Init(disk.log + [e]) == disk.log;
      healthy := healthy - 1;
      store := WriteAll(store, wb);
      disk := disk.(log := disk.log + [e]);
      assert LoggedBatch(old(store), before, store, disk, d == Durable, wb);
      ok := true;
    }

    /** Persist every memtable, atomically. */
    method Flush() returns (ok: bool)
      requires Valid()
      modifies this
      ensures Valid()
      ensures ok == (old(healthy) > 0) && healthy == Left(old(healthy), ok)
      ensures store == old(store)
      ensures disk == if ok then old(disk).(flushed := |old(disk).log|) else old(disk)
    {
      ok := healthy > 0;
      if ok {
        healthy := healthy - 1;
        disk := disk.(flushed := |disk.log|);
      }
    }

    /** What the coins spent by `b` were worth before it, as far as they existed. */
    method SpentValues(b: Block, batch: map<Coin, UtxoVal>) returns (out: seq<(Coin, UtxoVal)>)
      ensures Restored(out) == Known(batch, store.rows.utxo, BlockSpent(b.txs))
    {
      out := [];
      var seen: set<Coin> := {};
      for i := 0 to |b.txs|
        invariant seen == BlockSpent(b.txs[..i])
        invariant Restored(out) == Known(batch, store.rows.utxo, seen)
      {
        assert Init(b.txs[..i + 1]) == b.txs[..i];
        out, seen := SpentOfTx(b.txs[i], batch, store.rows.utxo, out, seen);
      }
      assert b.txs[..|b.txs|] == b.txs;
    }

    /** One block's part of the write batch and its undo record. `spent` is
        what earlier blocks of the batch spent. */
    method BlockBatch(b: Block, first: TxNum, keepUndo: bool, wb: seq<Op>, batch: map<Coin, UtxoVal>,
                      ghost spent: set<Coin>)
      returns (err: Option<DbError>, wb': seq<Op>, batch': map<Coin, UtxoVal>, ghost undo: Undo)
      requires keepUndo ==> BatchKnows(batch, store.rows.utxo, WriteAll(store, wb).rows.utxo, spent)
      ensures err.None? <==> first <= MAX_TXNUM && first + |b.txs| <= MAX_TXNUM + 1
      ensures err.Some? ==> err.value == if b.txs == [] then Panicked else Exhausted(b.height)
      ensures err.None? ==> BlockBatched(store, wb, wb', b, first, keepUndo, batch', spent, undo)
    {
      var deleted: seq<(Coin, UtxoVal)> := [];
      if keepUndo {
        deleted := SpentValues(b, batch);
      }
      var added, history;
      undo := Undo(0, 0, [], [], []);
      err, wb', batch', added, deleted, history := TxsBatch(store, b, first, keepUndo, wb, batch, deleted, spent);
      if err.Some? {
        return;
      }
      if first > MAX_TXNUM {
        err := Some(Panicked);
        return;
      }
      ghost var wbTxs := wb';
      WriteMore(store, wb', PutBlock(b.height, RecOf(b, first)));
      wb' := wb' + [PutBlock(b.height, RecOf(b, first))];
      if keepUndo {
        var addedUtxo := Collect(added);
        var record := Undo(first, |b.txs|, history, addedUtxo, deleted);
        undo := record;
        WriteMore(store, wb', PutUndo(b.height, record));
        wb' := wb' + [PutUndo(b.height, record)];
      }
      FinishBlock(store, wb, wbTxs, wb', b, first, keepUndo, batch', spent, added, deleted, history, undo);
    }

    method BatchNext(blocks: seq<Block>, i: nat, nextTxnum: TxNum, keepUndo: bool, wb: seq<Op>,
                     batch: map<Coin, UtxoVal>, first: TxNum)
      returns (err: Option<DbError>, wb': seq<Op>, batch': map<Coin, UtxoVal>)
      requires i < |blocks| && Consecutive(blocks) && first == nextTxnum + TxCount(blocks[..i])
      requires BatchedTo(store, wb, blocks, i, nextTxnum, keepUndo, batch)
      ensures err.None? <==> first <= MAX_TXNUM && first + |blocks[i].txs| <= MAX_TXNUM + 1
      ensures err.Some? ==> err.value == Panicked || err.value.Exhausted?
      ensures err.None? ==> BatchedTo(store, wb', blocks, i + 1, nextTxnum, keepUndo, batch')
    {
      ghost var undo;
      err, wb', batch', undo := BlockBatch(blocks[i], first, keepUndo, wb, batch, AllSpentCoins(blocks[..i]));
      if err.None? {
        ExtendBatch(store, wb, wb', blocks, i, nextTxnum, keepUndo, batch, batch', undo);
      }
    }

    /** The write batch of `blocks`, `meta.tip` included. */
    method BatchAll(blocks: seq<Block>, nextTxnum: TxNum, keepUndo: bool)
      returns (err: Option<DbError>, wb: seq<Op>, recs: seq<BlockRec>)
      requires Consecutive(blocks)
      ensures err.None? <==> Fits(blocks, nextTxnum)
      ensures err.Some? ==> err.value == Panicked || err.value.Exhausted?
      ensures err.None? ==>
                Applied(store, WriteAll(store, wb), blocks, nextTxnum, keepUndo) && Recorded(recs, blocks, nextTxnum)
    {
      hide BatchedTo, Recorded, Applied, WriteAll, TxCount;
      err, wb, recs := None, [], [];
      var n := nextTxnum;
      var batch: map<Coin, UtxoVal> := map[];
      StartBatch(store, blocks, nextTxnum, keepUndo);
      for i := 0 to |blocks|
        invariant err.None?
        invariant n == nextTxnum + TxCount(blocks[..i])
        invariant BatchedTo(store, wb, blocks, i, nextTxnum, keepUndo, batch)
        invariant Recorded(recs, blocks[..i], nextTxnum)
        invariant Fits(blocks[..i], nextTxnum)
      {
        err, wb, batch := BatchNext(blocks, i, nextTxnum, keepUndo, wb, batch, n);
        if err.Some? {
          assert !FitsAt(blocks, nextTxnum, i);
          return;
        }
        RecordMore(recs, blocks, i, nextTxnum);
        FitsMore(blocks, i, nextTxnum);
        recs := recs + [RecOf(blocks[i], n)];
        n := n + |blocks[i].txs|;
      }
      assert blocks[..|blocks|] == blocks;
      FinishBatch(store, wb, blocks, nextTxnum, keepUndo, batch);
      if blocks != [] {
        wb := wb + [SetTip(Some(Tip(Last(blocks).height, Last(blocks).hash)))];
      }
    }

    /** One atomic batch for all of `blocks`: all or nothing, and, if asked for,
        a record for each that takes it back. */
    method Apply(blocks: seq<Block>, nextTxnum: TxNum, d: Durability, keepUndo: bool)
      returns (r: Result<seq<BlockRec>, DbError>)
      requires Valid() && Consecutive(blocks)
      modifies this
      ensures Valid()
      ensures r.Ok? ==> Fits(blocks, nextTxnum) && Applied(old(store), store, blocks, nextTxnum, keepUndo) &&
                        Recorded(r.value, blocks, nextTxnum)
      ensures r.Ok? ==> Logged(old(store), old(disk), store, disk, d == Durable)
      ensures r.Err? ==> store == old(store) && disk == old(disk)
      ensures r.Ok? <==> Fits(blocks, nextTxnum) && old(healthy) > 0
      ensures healthy == Left(old(healthy), r.Ok?)
      ensures r.Err? ==> if Fits(blocks, nextTxnum) then r.error == Io else r.error == Panicked || r.error.Exhausted?
    {
      var err, wb, recs := BatchAll(blocks, nextTxnum, keepUndo);
      if err.Some? {
        return Err(err.value);
      }
      var ok := Commit(wb, d);
      if !ok {
        return Err(Io);
      }
      r := Ok(recs);
    }

    /** Take the block at `height` back, provided its record matches its row. */
    method Rollback(height: nat, rec: BlockRec, newTip: Option<Tip>) returns (r: Result<(), DbError>)
      requires Valid()
      modifies this
      ensures Valid()
      ensures r.Err? ==> store == old(store) && disk == old(disk)
      ensures r == Err(NoUndo(height)) <==> r.Err? && r.error.NoUndo?
      ensures r == Err(Mismatch(height)) <==> r.Err? && r.error.Mismatch?
      ensures r.Err? && r.error.NoUndo? <==> height !in old(store).undo
      ensures r.Err? && r.error.Mismatch? <==> height in old(store).undo && !Covers(old(store).undo[height], rec)
      ensures r.Err? && r.error.Panicked? <==>
              height in old(store).undo && Covers(old(store).undo[height], rec) && !EndFits(rec)
      ensures r.Ok? <==> height in old(store).undo && Covers(old(store).undo[height], rec) && EndFits(rec) &&
                         old(healthy) > 0
      ensures healthy == Left(old(healthy), r.Ok?)
      ensures r.Err? ==> !r.error.Exhausted?
      ensures r.Ok? ==>
                && height in old(store).undo
                && store == Store(RollbackRows(old(store).rows, old(store).undo[height], height, rec, newTip),
                                  old(store).undo - {height})
                && Logged(old(store), old(disk), store, disk, true)
    {
      if height !in store.undo {
        return Err(NoUndo(height));
      }
      var undo := store.undo[height];
      if !Covers(undo, rec) {
        return Err(Mismatch(height));
      }
      var wb := RollbackRowOps(store, undo);
      var end := rec.firstTxnum + rec.nTxs;
      if end > rec.firstTxnum {
        if end > MAX_TXNUM {
          return Err(Panicked);
        }
        WriteMore(store, wb, DelTxids(rec.firstTxnum, end));
        wb := wb + [DelTxids(rec.firstTxnum, end)];
      } else {
        assert WithoutRange(store.rows.txids, rec.firstTxnum, end) == store.rows.txids;
      }
      RollbackOps(store, wb, undo, height, rec, newTip);
      wb := wb + [DelBlock(height)] + [DelUndo(height)] + [SetTip(newTip)];
      var ok := Commit(wb, Durable);
      if !ok {
        return Err(Io);
      }
      r := Ok(());
    }

    /** Forget how to take back blocks lower than `below`. */
    method PruneUndo(below: nat) returns (ok: bool)
      requires Valid()
      modifies this
      ensures Valid()
      ensures ok == (old(healthy) > 0) && healthy == Left(old(healthy), ok)
      ensures !ok ==> store == old(store) && disk == old(disk)
      ensures ok ==> store == old(store).(undo := WithoutRange(old(store).undo, 0, below))
      ensures ok ==> Logged(old(store), old(disk), store, disk, true)
    {
      WriteMore(store, [], DelUndosBelow(below));
      var wb := [] + [DelUndosBelow(below)];
      ok := Commit(wb, Durable);
    }
  }
}
