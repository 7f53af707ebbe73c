/** What the index means: the rows obtained by replaying a chain, one
    transaction at a time, with no batches, undo records or caches. */
module Ledger {
  import opened Types

  /** The reorg-tracked column families. */
  datatype Rows = Rows(
    txids: map<TxNum, Txid>,
    history: set<Touch>,
    utxo: map<Coin, UtxoVal>,
    blocks: map<nat, BlockRec>,
    tip: Option<Tip>)

  const EMPTY := Rows(map[], {}, map[], map[], None)

  function CoinOf(txid: Txid, f: Funded): Coin {
    Coin(f.program, OutPoint(txid, f.vout))
  }

  function SpentCoin(s: Spent): Coin {
    Coin(s.program, s.prevout)
  }

  /** Programs a transaction funds or spends. */
  function Touched(tx: TxRows): set<Program> {
    (set f | f in tx.funded :: f.program) + (set s | s in tx.spent :: s.program)
  }

  function FundedCoins(tx: TxRows): set<Coin> {
    set f | f in tx.funded :: CoinOf(tx.txid, f)
  }

  function SpentCoins(tx: TxRows): set<Coin> {
    set s | s in tx.spent :: SpentCoin(s)
  }

  function SpentOuts(tx: TxRows): set<OutPoint> {
    set s | s in tx.spent :: s.prevout
  }

  function FundedOuts(tx: TxRows): set<OutPoint> {
    set f | f in tx.funded :: OutPoint(tx.txid, f.vout)
  }

  function FundAll(u: map<Coin, UtxoVal>, txid: Txid, fs: seq<Funded>, height: nat): map<Coin, UtxoVal> {
    if fs == [] then u
    else FundAll(u, txid, Init(fs), height)[CoinOf(txid, Last(fs)) := UtxoVal(Last(fs).value, height)]
  }

  function ApplyTx(r: Rows, tx: TxRows, n: TxNum, height: nat): Rows {
    r.(txids := r.txids[n := tx.txid],
    history := r.history + (set p | p in Touched(tx) :: Touch(p, n)),
    utxo := FundAll(r.utxo, tx.txid, tx.funded, height) - SpentCoins(tx))
  }

  function ApplyTxs(r: Rows, txs: seq<TxRows>, n: TxNum, height: nat): Rows {
    if txs == [] then r
    else ApplyTx(ApplyTxs(r, Init(txs), n, height), Last(txs), n + |txs| - 1, height)
  }

  function RecOf(b: Block, n: TxNum): BlockRec {
    BlockRec(b.hash, b.time, n, |b.txs|)
  }

  function ApplyBlock(r: Rows, b: Block, n: TxNum): Rows {
    ApplyTxs(r, b.txs, n, b.height).(
    blocks := r.blocks[b.height := RecOf(b, n)],
    tip := Some(Tip(b.height, b.hash)))
  }

  function TxCount(blocks: seq<Block>): nat {
    if blocks == [] then 0 else TxCount(Init(blocks)) + |Last(blocks).txs|
  }

  function ApplyBlocks(r: Rows, blocks: seq<Block>, n: TxNum): Rows {
    if blocks == [] then r
    else ApplyBlock(ApplyBlocks(r, Init(blocks), n), Last(blocks), n + TxCount(Init(blocks)))
  }

  /** The whole index of `chain`, numbering its transactions from 0. */
  function Replay(chain: seq<Block>): Rows {
    ApplyBlocks(EMPTY, chain, 0)
  }

  // ---------------------------------------------------------------- splitting

  lemma {:induction false} ApplyBlocksConcat(r: Rows, a: seq<Block>, b: seq<Block>, n: TxNum)
    ensures TxCount(a + b) == TxCount(a) + TxCount(b)
    ensures ApplyBlocks(r, a + b, n) == ApplyBlocks(ApplyBlocks(r, a, n), b, n + TxCount(a))
    decreases |b|
  {
    hide ApplyBlock;
    if b == [] {
      assert a + b == a;
    } else {
      ApplyBlocksConcat(r, a, Init(b), n);
      assert a + b == (a + Init(b)) + [Last(b)];
      ApplyBlocksSnoc(r, a + Init(b), Last(b), n);
    }
  }

  lemma {:induction false} ApplyBlocksSnoc(r: Rows, blocks: seq<Block>, b: Block, n: TxNum)
    ensures TxCount(blocks + [b]) == TxCount(blocks) + |b.txs|
    ensures ApplyBlocks(r, blocks + [b], n) == ApplyBlock(ApplyBlocks(r, blocks, n), b, n + TxCount(blocks))
  {
    assert Init(blocks + [b]) == blocks;
  }

  lemma ReplayExtends(chain: seq<Block>, blocks: seq<Block>)
    ensures Replay(chain + blocks) == ApplyBlocks(Replay(chain), blocks, TxCount(chain))
    ensures TxCount(chain + blocks) == TxCount(chain) + TxCount(blocks)
  {
    ApplyBlocksConcat(EMPTY, chain, blocks, 0);
  }

  // ------------------------------------------------- what the rows consist of

  /** A transaction with the height of its block. */
  datatype Placed = Placed(tx: TxRows, height: nat)

  function Place(txs: seq<TxRows>, height: nat): seq<Placed> {
    seq(|txs|, i requires 0 <= i < |txs| => Placed(txs[i], height))
  }

  /** Every indexed transaction of a chain, in chain order: its index is its txnum. */
  function Flat(chain: seq<Block>): (txs: seq<Placed>)
    ensures |txs| == TxCount(chain)
  {
    if chain == [] then []
    else Flat(Init(chain)) + Place(Last(chain).txs, Last(chain).height)
  }

  function AllFunded(txs: seq<Placed>): set<Coin> {
    if txs == [] then {} else AllFunded(Init(txs)) + FundedCoins(Last(txs).tx)
  }

  function AllFundedOuts(txs: seq<Placed>): set<OutPoint> {
    if txs == [] then {} else AllFundedOuts(Init(txs)) + FundedOuts(Last(txs).tx)
  }

  function AllSpent(txs: seq<Placed>): set<OutPoint> {
    if txs == [] then {} else AllSpent(Init(txs)) + SpentOuts(Last(txs).tx)
  }

  ghost predicate DistinctVouts(tx: TxRows) {
    forall i, j :: 0 <= i < j < |tx.funded| ==> tx.funded[i].vout != tx.funded[j].vout
  }

  ghost predicate DistinctSpends(tx: TxRows) {
    forall i, j :: 0 <= i < j < |tx.spent| ==> tx.spent[i].prevout != tx.spent[j].prevout
  }

  /** A spend of an indexed output carries that output's program (BIP 141,
      section "Witness program": HASH160 of the key equals the program). */
  ghost predicate CarriesProgram(funded: set<Coin>, tx: TxRows) {
    forall c, s :: c in funded && s in tx.spent && s.prevout == c.op ==> s.program == c.program
  }

  /** Consensus on the indexed rows: an outpoint is funded once and spent at
      most once, never before or by the transaction that funds it. Spends of
      outputs the index never saw funded are allowed. */
  ghost predicate ValidNext(txs: seq<Placed>, tx: TxRows) {
    && DistinctVouts(tx)
    && DistinctSpends(tx)
    && FundedOuts(tx) !! AllFundedOuts(txs)
    && FundedOuts(tx) !! AllSpent(txs)
    && FundedOuts(tx) !! SpentOuts(tx)
    && SpentOuts(tx) !! AllSpent(txs)
    && CarriesProgram(AllFunded(txs), tx)
  }

  ghost predicate ValidTxs(txs: seq<Placed>) {
    txs != [] ==> ValidTxs(Init(txs)) && ValidNext(Init(txs), Last(txs).tx)
  }

  ghost predicate ValidChain(chain: seq<Block>) {
    ValidTxs(Flat(chain))
  }

  function Utxo(txs: seq<Placed>): map<Coin, UtxoVal> {
    if txs == [] then map[]
    else FundAll(Utxo(Init(txs)), Last(txs).tx.txid, Last(txs).tx.funded, Last(txs).height) - SpentCoins(Last(txs).tx)
  }

  function Histories(txs: seq<Placed>): set<Touch> {
    if txs == [] then {}
    else Histories(Init(txs)) + (set p | p in Touched(Last(txs).tx) :: Touch(p, |txs| - 1))
  }

  function Numbered(txs: seq<Placed>): map<TxNum, Txid> {
    map n | 0 <= n < |txs| :: txs[n].tx.txid
  }

  lemma PlaceLast(before: seq<Placed>, txs: seq<TxRows>, height: nat)
    requires txs != []
    ensures before + Place(txs, height) == (before + Place(Init(txs), height)) + [Placed(Last(txs), height)]
  {
    assert Place(txs, height) == Place(Init(txs), height) + [Placed(Last(txs), height)];
  }

  lemma {:induction false} SnocFlat(txs: seq<Placed>, t: Placed)
    ensures Utxo(txs + [t]) == FundAll(Utxo(txs), t.tx.txid, t.tx.funded, t.height) - SpentCoins(t.tx)
    ensures Histories(txs + [t]) == Histories(txs) + (set p | p in Touched(t.tx) :: Touch(p, |txs|))
    ensures Numbered(txs + [t]) == Numbered(txs)[|txs| := t.tx.txid]
  {
    assert Init(txs + [t]) == txs && Last(txs + [t]) == t;
    var after := Numbered(txs + [t]);
    assert after.Keys == Numbered(txs)[|txs| := t.tx.txid].Keys;
  }

  ghost predicate Matches(r: Rows, txs: seq<Placed>) {
    r.utxo == Utxo(txs) && r.history == Histories(txs) && r.txids == Numbered(txs)
  }

  lemma {:induction false} ApplyTxsFlat(r: Rows, before: seq<Placed>, txs: seq<TxRows>, height: nat)
    requires Matches(r, before)
    ensures Matches(ApplyTxs(r, txs, |before|, height), before + Place(txs, height))
    decreases |txs|
  {
    if txs == [] {
      assert before + Place(txs, height) == before;
    } else {
      ApplyTxsFlat(r, before, Init(txs), height);
      PlaceLast(before, txs, height);
      SnocFlat(before + Place(Init(txs), height), Placed(Last(txs), height));
    }
  }

  /** The three transaction families of a replay are functions of the flat
      transaction list; `blocks` and `tip` of the block list. */
  lemma {:induction false} ReplayFlat(chain: seq<Block>)
    ensures Replay(chain).utxo == Utxo(Flat(chain))
    ensures Replay(chain).history == Histories(Flat(chain))
    ensures Replay(chain).txids == Numbered(Flat(chain))
    ensures Replay(chain).tip == if chain == [] then None else Some(Tip(Last(chain).height, Last(chain).hash))
  {
    if chain != [] {
      ReplayFlat(Init(chain));
      ApplyTxsFlat(Replay(Init(chain)), Flat(Init(chain)), Last(chain).txs, Last(chain).height);
    }
  }

  lemma {:induction false} FundAllKeys(u: map<Coin, UtxoVal>, txid: Txid, fs: seq<Funded>, height: nat)
    ensures FundAll(u, txid, fs, height).Keys == u.Keys + (set f | f in fs :: CoinOf(txid, f))
    ensures forall c :: c in u && c !in (set f | f in fs :: CoinOf(txid, f)) ==> FundAll(u, txid, fs, height)[c] == u[c]
  {
    if fs != [] {
      FundAllKeys(u, txid, Init(fs), height);
      assert fs == Init(fs) + [Last(fs)];
    }
  }

  lemma {:induction false} FundAllValues(u: map<Coin, UtxoVal>, txid: Txid, fs: seq<Funded>, height: nat, i: nat)
    requires i < |fs|
    requires forall i, j :: 0 <= i < j < |fs| ==> fs[i].vout != fs[j].vout
    ensures CoinOf(txid, fs[i]) in FundAll(u, txid, fs, height)
    ensures FundAll(u, txid, fs, height)[CoinOf(txid, fs[i])] == UtxoVal(fs[i].value, height)
  {
    if i < |fs| - 1 {
      FundAllValues(u, txid, Init(fs), height, i);
    }
  }

  lemma {:induction false} AllFundedOps(txs: seq<Placed>)
    ensures forall c :: c in AllFunded(txs) ==> c.op in AllFundedOuts(txs)
  {
    if txs != [] {
      AllFundedOps(Init(txs));
    }
  }

  /** In a valid chain the UTXO set is exactly the outputs funded in it and
      spent by no transaction in it. */
  lemma {:induction false} UtxoIsFundedMinusSpent(txs: seq<Placed>)
    requires ValidTxs(txs)
    ensures Utxo(txs).Keys == set c | c in AllFunded(txs) && c.op !in AllSpent(txs)
  {
    if txs != [] {
      var before, last := Init(txs), Last(txs);
      UtxoIsFundedMinusSpent(before);
      FundAllKeys(Utxo(before), last.tx.txid, last.tx.funded, last.height);
      AllFundedOps(before);
      forall c | c in AllFunded(txs)
        ensures c in Utxo(txs) <==> c.op !in AllSpent(txs)
      {
        assert c in FundedCoins(last.tx) ==> c.op in FundedOuts(last.tx);
      }
    }
  }

  /** The value stored for an unspent output is the one its transaction gave it,
      with the height of that transaction's block. */
  lemma {:induction false} UtxoValues(txs: seq<Placed>, i: nat, j: nat)
    requires ValidTxs(txs)
    requires i < |txs| && j < |txs[i].tx.funded|
    ensures var c := CoinOf(txs[i].tx.txid, txs[i].tx.funded[j]);
            c in Utxo(txs) ==> Utxo(txs)[c] == UtxoVal(txs[i].tx.funded[j].value, txs[i].height)
  {
    var before, last := Init(txs), Last(txs);
    var c := CoinOf(txs[i].tx.txid, txs[i].tx.funded[j]);
    FundAllKeys(Utxo(before), last.tx.txid, last.tx.funded, last.height);
    if i == |before| {
      FundAllValues(Utxo(before), last.tx.txid, last.tx.funded, last.height, j);
    } else {
      UtxoValues(before, i, j);
      FundedSomewhere(before, i, j);
      AllFundedOps(before);
      assert c in FundedCoins(last.tx) ==> c.op in FundedOuts(last.tx);
    }
  }

  lemma {:induction false} FundedSomewhere(txs: seq<Placed>, i: nat, j: nat)
    requires i < |txs| && j < |txs[i].tx.funded|
    ensures CoinOf(txs[i].tx.txid, txs[i].tx.funded[j]) in AllFunded(txs)
  {
    if i < |txs| - 1 {
      FundedSomewhere(Init(txs), i, j);
    }
  }

  /** History holds exactly the (program, txnum) pairs the chain touches. */
  lemma {:induction false} HistoryIsTouches(txs: seq<Placed>, p: Program, n: TxNum)
    ensures Touch(p, n) in Histories(txs) <==> n < |txs| && p in Touched(txs[n].tx)
  {
    if txs != [] {
      HistoryIsTouches(Init(txs), p, n);
    }
  }
}
