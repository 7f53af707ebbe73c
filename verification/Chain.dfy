/** Linked chains of blocks and what it means for a store to index one. */
module Chain {
  import opened Types
  import opened Ledger
  import opened Storage

  /** Consecutive heights from `start`, each block naming its parent, and rows
      that consensus allows. */
  ghost predicate Links(chain: seq<Block>, start: nat) {
    && (forall i :: 0 <= i < |chain| ==> chain[i].height == start + i)
    && (forall i :: 0 < i < |chain| ==> chain[i].prev == chain[i - 1].hash)
  }

  ghost predicate Linked(chain: seq<Block>, start: nat) {
    Links(chain, start) && ValidChain(chain)
  }

  ghost predicate UndoOk(u: Undo, chain: seq<Block>, i: nat)
    requires i < |chain|
  {
    IsUndo(u, Replay(chain[..i]), Replay(chain[..i + 1]), TxCount(chain[..i]), |chain[i].txs|)
  }

  /** The store holds exactly the replay of `chain`, and every undo record in
      it undoes the block of `chain` at its height. */
  ghost predicate Indexes(s: Store, chain: seq<Block>, start: nat) {
    && s.rows == Replay(chain)
    && forall h :: h in s.undo ==> start <= h < start + |chain| && UndoOk(s.undo[h], chain, h - start)
  }

  // -------------------------------------------- consequences of consensus

  lemma {:induction false} FlatSnoc(chain: seq<Block>, b: Block)
    ensures Flat(chain + [b]) == Flat(chain) + Place(b.txs, b.height)
  {
    hide Place;
    assert Init(chain + [b]) == chain;
  }

  lemma {:induction false} FlatConcat(a: seq<Block>, b: seq<Block>)
    ensures Flat(a + b) == Flat(a) + Flat(b)
    decreases |b|
  {
    hide Place, TxCount;
    if b == [] {
      assert a + b == a;
    } else {
      assert a + b == (a + Init(b)) + [Last(b)] && b == Init(b) + [Last(b)];
      FlatConcat(a, Init(b));
      FlatSnoc(a + Init(b), Last(b));
      FlatSnoc(Init(b), Last(b));
    }
  }

  lemma {:induction false} ValidPrefix(txs: seq<Placed>, k: nat)
    requires ValidTxs(txs) && k <= |txs|
    ensures ValidTxs(txs[..k])
  {
    if k < |txs| {
      ValidPrefix(Init(txs), k);
      assert Init(txs)[..k] == txs[..k];
    } else {
      assert txs[..k] == txs;
    }
  }

  lemma {:induction false} LinkedPrefix(chain: seq<Block>, start: nat, k: nat)
    requires Linked(chain, start) && k <= |chain|
    ensures Linked(chain[..k], start)
  {
    hide ValidChain;
    assert chain == chain[..k] + chain[k..];
    ValidChainPrefix(chain, chain[..k], chain[k..]);
  }

  lemma {:induction false} SetsGrow(a: seq<Placed>, b: seq<Placed>)
    ensures AllFunded(a) <= AllFunded(a + b)
    ensures AllFundedOuts(a) <= AllFundedOuts(a + b)
    ensures AllSpent(a) <= AllSpent(a + b)
    decreases |b|
  {
    if b == [] {
      assert a + b == a;
    } else {
      assert Init(a + b) == a + Init(b);
      SetsGrow(a, Init(b));
    }
  }

  /** A block appended to a valid chain creates no coin that is unspent, and
      spends no outpoint the chain has spent. */
  lemma {:induction false} NextBlockFresh(before: seq<Placed>, txs: seq<TxRows>, height: nat)
    requires ValidTxs(before + Place(txs, height))
    ensures forall c :: c in BlockFunded(txs) ==> c.op !in AllFundedOuts(before)
    ensures forall c :: c in BlockSpent(txs) ==> c.op !in AllSpent(before)
    ensures forall c :: c in BlockSpent(txs) ==> c.op in AllSpent(before + Place(txs, height))
    decreases |txs|
  {
    if txs != [] {
      PlaceLast(before, txs, height);
      var mid := before + Place(Init(txs), height);
      assert Init(before + Place(txs, height)) == mid;
      NextBlockFresh(before, Init(txs), height);
      SetsGrow(before, Place(Init(txs), height));
      assert forall c :: c in FundedCoins(Last(txs)) ==> c.op in FundedOuts(Last(txs));
      assert forall c :: c in SpentCoins(Last(txs)) ==> c.op in SpentOuts(Last(txs));
    }
  }

  lemma {:induction false} UtxoWasFunded(txs: seq<Placed>)
    ensures Utxo(txs).Keys <= AllFunded(txs)
  {
    if txs != [] {
      UtxoWasFunded(Init(txs));
      FundAllKeys(Utxo(Init(txs)), Last(txs).tx.txid, Last(txs).tx.funded, Last(txs).height);
    }
  }

  lemma {:induction false} SpentIsSpent(blocks: seq<Block>, chain: seq<Block>)
    requires ValidChain(chain + blocks)
    ensures forall c :: c in AllSpentCoins(blocks) ==> c.op in AllSpent(Flat(chain + blocks))
    decreases |blocks|
  {
    if blocks != [] {
      var before, b := chain + Init(blocks), Last(blocks);
      assert chain + blocks == before + [b];
      assert Init(before + [b]) == before;
      FlatSnoc(before, b);
      ValidPrefix(Flat(before + [b]), |Flat(before)|);
      assert Flat(before + [b])[..|Flat(before)|] == Flat(before);
      SpentIsSpent(Init(blocks), chain);
      NextBlockFresh(Flat(before), b.txs, b.height);
      SetsGrow(Flat(before), Place(b.txs, b.height));
    }
  }

  /** Block `b` on top of `chain + blocks`: what its undo record relies on. */
  lemma {:induction false} NextUndoable(chain: seq<Block>, blocks: seq<Block>, b: Block)
    requires ValidChain(chain + blocks + [b])
    ensures HistoryBelow(Replay(chain + blocks), TxCount(chain + blocks))
    ensures FreshFunding(Replay(chain + blocks).utxo, b.txs)
    ensures BlockSpent(b.txs) !! AllSpentCoins(blocks)
  {
    hide ValidTxs, Utxo, Histories, ApplyBlocks;
    var all := chain + blocks;
    FlatSnoc(all, b);
    ReplayFlat(all);
    forall t | t in Replay(all).history
      ensures t.txnum < TxCount(all)
    {
      HistoryIsTouches(Flat(all), t.program, t.txnum);
    }
    NextBlockFresh(Flat(all), b.txs, b.height);
    UtxoWasFunded(Flat(all));
    AllFundedOps(Flat(all));
    ValidPrefix(Flat(all + [b]), |Flat(all)|);
    assert Flat(all + [b])[..|Flat(all)|] == Flat(all);
    SpentIsSpent(blocks, chain);
  }

  lemma {:induction false} ChainUndoableAt(chain: seq<Block>, blocks: seq<Block>, i: nat)
    requires ValidChain(chain + blocks) && i < |blocks|
    ensures HistoryBelow(ApplyBlocks(Replay(chain), blocks[..i], TxCount(chain)), TxCount(chain) + TxCount(blocks[..i]))
    ensures FreshFunding(ApplyBlocks(Replay(chain), blocks[..i], TxCount(chain)).utxo, blocks[i].txs)
    ensures BlockSpent(blocks[i].txs) !! AllSpentCoins(blocks[..i])
  {
    hide *;
    var upTo := chain + blocks[..i] + [blocks[i]];
    assert ValidChain(upTo) by { ValidChainPrefix(chain + blocks, upTo, blocks[i + 1..]); }
    ReplayExtends(chain, blocks[..i]);
    NextUndoable(chain, blocks[..i], blocks[i]);
  }

  lemma {:induction false} ValidChainPrefix(all: seq<Block>, a: seq<Block>, b: seq<Block>)
    requires all == a + b && ValidChain(all)
    ensures ValidChain(a)
  {
    FlatConcat(a, b);
    ValidPrefix(Flat(all), |Flat(a)|);
    assert Flat(all)[..|Flat(a)|] == Flat(a);
  }

  /** Consensus makes every batch on top of an indexed chain undoable. */
  lemma {:induction false} ChainUndoable(chain: seq<Block>, blocks: seq<Block>)
    requires ValidChain(chain + blocks)
    ensures Undoable(Replay(chain), blocks, TxCount(chain))
  {
    hide ValidChain, Replay, ApplyBlocks, TxCount, HistoryBelow, FreshFunding, BlockSpent, AllSpentCoins;
    forall i | 0 <= i < |blocks|
      ensures HistoryBelow(ApplyBlocks(Replay(chain), blocks[..i], TxCount(chain)), TxCount(chain) +
                           TxCount(blocks[..i]))
              && FreshFunding(ApplyBlocks(Replay(chain), blocks[..i], TxCount(chain)).utxo, blocks[i].txs)
              && BlockSpent(blocks[i].txs) !! AllSpentCoins(blocks[..i])
    {
      ChainUndoableAt(chain, blocks, i);
    }
  }

  // -------------------------------------------------- every write keeps it

  lemma {:induction false} BlockKeys(chain: seq<Block>, start: nat)
    requires forall i :: 0 <= i < |chain| ==> chain[i].height == start + i
    ensures forall h :: h in Replay(chain).blocks <==> start <= h < start + |chain|
  {
    hide ApplyTxs, TxCount;
    if chain != [] {
      BlockKeys(Init(chain), start);
    }
  }

  lemma {:induction false} BlockRowAt(chain: seq<Block>, start: nat, i: nat)
    requires forall i :: 0 <= i < |chain| ==> chain[i].height == start + i
    requires i < |chain|
    ensures start + i in Replay(chain).blocks && Replay(chain).blocks[start + i] == RecOf(chain[i], TxCount(chain[..i]))
  {
    hide ApplyTxs, TxCount;
    if i < |chain| - 1 {
      BlockRowAt(Init(chain), start, i);
      assert Init(chain)[..i] == chain[..i];
    }
  }

  lemma {:induction false} BlocksOfReplay(chain: seq<Block>, start: nat)
    requires forall i :: 0 <= i < |chain| ==> chain[i].height == start + i
    ensures forall h :: h in Replay(chain).blocks <==> start <= h < start + |chain|
    ensures forall i :: 0 <= i < |chain| ==> Replay(chain).blocks[start + i] == RecOf(chain[i], TxCount(chain[..i]))
  {
    hide Replay, TxCount, RecOf;
    BlockKeys(chain, start);
    forall i | 0 <= i < |chain|
      ensures Replay(chain).blocks[start + i] == RecOf(chain[i], TxCount(chain[..i]))
    {
      BlockRowAt(chain, start, i);
    }
  }

  /** The index depends on the current chain alone, and says what it holds:
      every family characterised by the chain's blocks and transactions. */
  lemma {:induction false} ReplayMeaning(chain: seq<Block>, start: nat)
    requires Linked(chain, start)
    ensures Replay(chain).utxo.Keys == set c | c in AllFunded(Flat(chain)) && c.op !in AllSpent(Flat(chain))
    ensures forall i: nat, j: nat :: i < |Flat(chain)| && j < |Flat(chain)[i].tx.funded| ==>
                                       CoinOf(Flat(chain)[i].tx.txid,
                                              Flat(chain)[i].tx.funded[j]) in Replay(chain).utxo ==>
                                         Replay(chain).utxo[CoinOf(Flat(chain)[i].tx.txid,
                                                                   Flat(chain)[i].tx.funded[j])] ==
                                         UtxoVal(Flat(chain)[i].tx.funded[j].value, Flat(chain)[i].height)
    ensures forall p: Program, n: TxNum :: Touch(p, n) in Replay(chain).history <==>
                                           n < |Flat(chain)| && p in Touched(Flat(chain)[n].tx)
    ensures Replay(chain).txids == Numbered(Flat(chain))
    ensures forall h :: h in Replay(chain).blocks <==> start <= h < start + |chain|
    ensures forall i :: 0 <= i < |chain| ==> Replay(chain).blocks[start + i] == RecOf(chain[i], TxCount(chain[..i]))
    ensures Replay(chain).tip == if chain == [] then None else Some(Tip(start + |chain| - 1, Last(chain).hash))
  {
    hide ApplyBlocks, Utxo, Histories, ValidTxs, AllFunded, AllSpent, Flat, Touched, TxCount;
    ReplayFlat(chain);
    UtxoIsFundedMinusSpent(Flat(chain));
    BlocksOfReplay(chain, start);
    forall i: nat, j: nat | i < |Flat(chain)| && j < |Flat(chain)[i].tx.funded|
      ensures CoinOf(Flat(chain)[i].tx.txid, Flat(chain)[i].tx.funded[j]) in Replay(chain).utxo ==>
                Replay(chain).utxo[CoinOf(Flat(chain)[i].tx.txid, Flat(chain)[i].tx.funded[j])] ==
                UtxoVal(Flat(chain)[i].tx.funded[j].value, Flat(chain)[i].height)
    {
      UtxoValues(Flat(chain), i, j);
    }
    forall p: Program, n: TxNum
      ensures Touch(p, n) in Replay(chain).history <==> n < |Flat(chain)| && p in Touched(Flat(chain)[n].tx)
    {
      HistoryIsTouches(Flat(chain), p, n);
    }
  }

  lemma {:induction false} UndoOkPrefix(u: Undo, a: seq<Block>, b: seq<Block>, i: nat)
    requires i < |a| && i < |b| && a[..i + 1] == b[..i + 1]
    ensures UndoOk(u, a, i) <==> UndoOk(u, b, i)
  {
    hide IsUndo, Replay, TxCount;
    assert a[..i] == a[..i + 1][..i] && b[..i] == b[..i + 1][..i];
    assert a[i] == a[..i + 1][i] && b[i] == b[..i + 1][i];
  }

  lemma {:induction false} NewUndo(undo: map<nat, Undo>, chain: seq<Block>, blocks: seq<Block>, i: nat)
    requires i < |blocks| && UndoFor(undo, Replay(chain), blocks, TxCount(chain), i)
    ensures UndoOk(undo[blocks[i].height], chain + blocks, |chain| + i)
  {
    hide IsUndo, Replay, TxCount, ApplyBlocks;
    var all := chain + blocks;
    assert all[|chain| + i] == blocks[i];
    assert all[..|chain| + i] == chain + blocks[..i];
    assert all[..|chain| + i + 1] == chain + blocks[..i + 1];
    ReplayExtends(chain, blocks[..i]);
    ReplayExtends(chain, blocks[..i + 1]);
  }

  /** Applying linked blocks on top of an indexed chain indexes the longer one,
      whatever the batch size and with or without undo records. */
  lemma {:induction false} ApplyIndexes(s: Store, s': Store, chain: seq<Block>, blocks: seq<Block>, start: nat,
                                        keepUndo: bool)
    requires Indexes(s, chain, start)
    requires Linked(chain + blocks, start)
    requires Applied(s, s', blocks, TxCount(chain), keepUndo)
    ensures Indexes(s', chain + blocks, start)
  {
    hide ApplyBlocks, ValidChain, Replay, UndoOk, UndoFor, Undoable, TxCount;
    ReplayExtends(chain, blocks);
    var all := chain + blocks;
    ChainUndoable(chain, blocks);
    assert forall i :: 0 <= i < |blocks| ==> blocks[i].height == all[|chain| + i].height == start + |chain| + i;
    forall h | h in s'.undo
      ensures start <= h < start + |all| && UndoOk(s'.undo[h], all, h - start)
    {
      if h in s.undo {
        assert start <= h < start + |chain|;
        assert chain[..h - start + 1] == all[..h - start + 1];
        UndoOkPrefix(s.undo[h], chain, all, h - start);
      } else {
        var i :| 0 <= i < |blocks| && blocks[i].height == h;
        assert UndoFor(s'.undo, s.rows, blocks, TxCount(chain), i);
        NewUndo(s'.undo, chain, blocks, i);
      }
    }
  }

  function TipOf(chain: seq<Block>): Option<Tip> {
    if chain == [] then None else Some(Tip(Last(chain).height, Last(chain).hash))
  }

  /** Rolling the top block back leaves exactly the index of the chain below. */
  lemma {:induction false} RollbackIndexes(s: Store, chain: seq<Block>, start: nat)
    requires chain != [] && Linked(chain, start) && Indexes(s, chain, start)
    requires Last(chain).height in s.undo
    ensures var h, rec := Last(chain).height, RecOf(Last(chain), TxCount(Init(chain)));
            var s' := Store(RollbackRows(s.rows, s.undo[h], h, rec, TipOf(Init(chain))), s.undo - {h});
            && s.undo[h].firstTxnum == rec.firstTxnum && s.undo[h].nTxs == rec.nTxs
            && Indexes(s', Init(chain), start)
  {
    hide Replay, ValidChain, RollbackRows, TxCount, UndoOk, RecOf, TipOf;
    var below, b := Init(chain), Last(chain);
    var h := b.height;
    assert h == start + |chain| - 1;
    RollbackTop(s.undo[h], chain, start);
    forall k | k in s.undo && k != h
      ensures start <= k < start + |below| && UndoOk(s.undo[k], below, k - start)
    {
      assert UndoOk(s.undo[k], chain, k - start);
      assert below[..k - start + 1] == chain[..k - start + 1];
      UndoOkPrefix(s.undo[k], chain, below, k - start);
    }
  }

  lemma {:induction false} RollbackTop(u: Undo, chain: seq<Block>, start: nat)
    requires chain != [] && Linked(chain, start) && UndoOk(u, chain, |chain| - 1)
    ensures var h, rec := Last(chain).height, RecOf(Last(chain), TxCount(Init(chain)));
            && u.firstTxnum == rec.firstTxnum && u.nTxs == rec.nTxs
            && RollbackRows(Replay(chain), u, h, rec, TipOf(Init(chain))) == Replay(Init(chain))
  {
    hide ApplyBlocks, ValidChain, ApplyBlock, RollbackRows;
    var below, b := Init(chain), Last(chain);
    assert below + [] == below && below + [] + [b] == chain;
    assert chain[..|chain| - 1] == below && chain[..|chain|] == chain;
    NextUndoable(below, [], b);
    ApplyBlocksSnoc(EMPTY, below, b, 0);
    assert below + [b] == chain;
    ReplayFlat(below);
    BlocksOfReplay(below, start);
    RollbackInverts(Replay(below), b, TxCount(below), u);
  }

  lemma {:induction false} PruneIndexes(s: Store, chain: seq<Block>, start: nat, below: nat)
    requires Indexes(s, chain, start)
    ensures Indexes(s.(undo := WithoutRange(s.undo, 0, below)), chain, start)
  {
  }
}
