/** From transactions to index rows: which outputs and inputs are P2WPKH, and
    why attributing a spend by its witness alone never misses one. */
module Extract {
  import opened Types
  import opened Keys
  import opened Ledger

  datatype TxOut = TxOut(script: Bytes, value: nat)

  datatype TxIn = TxIn(prevout: OutPoint, scriptSig: Bytes, stack: seq<Bytes>)

  datatype Tx = Tx(txid: Txid, inputs: seq<TxIn>, outputs: seq<TxOut>)

  datatype RawBlock = RawBlock(height: nat, hash: BlockHash, prev: BlockHash, time: nat, txs: seq<Tx>)

  type Hash160 = Bytes -> Program

  const NULL_OUTPOINT: OutPoint := OutPoint(0, 0xffff_ffff)

  predicate IsCoinbase(tx: Tx) {
    |tx.inputs| == 1 && tx.inputs[0].prevout == NULL_OUTPOINT
  }

  /** Version 0 and a 20-byte push. */
  predicate IsP2wpkh(script: Bytes) {
    |script| == 22 && script[0] == 0 && script[1] == 0x14
  }

  function ProgramOf(script: Bytes): Program
    requires IsP2wpkh(script)
  {
    Num(script[2..22])
  }

  /** The program an input would have to spend, read off its witness alone. */
  function SpendProgram(input: TxIn, hash: Hash160): Option<Program> {
    if input.scriptSig != [] || |input.stack| != 2 then None else Some(hash(input.stack[1]))
  }

  function FundedRows(outs: seq<TxOut>): seq<Funded> {
    if outs == [] then []
    else if IsP2wpkh(Last(outs).script) then FundedRows(Init(outs)) +
                                             [Funded(ProgramOf(Last(outs).script), |outs| - 1, Last(outs).value)]
    else FundedRows(Init(outs))
  }

  function SpentRows(inputs: seq<TxIn>, hash: Hash160): seq<Spent> {
    if inputs == [] then []
    else
      var before := SpentRows(Init(inputs), hash);
      var p := SpendProgram(Last(inputs), hash);
      if p.Some? then before + [Spent(p.value, Last(inputs).prevout)] else before
  }

  /** `tx_rows`: `None` if the transaction funds and spends no program. */
  function RowsOf(tx: Tx, hash: Hash160): Option<TxRows> {
    var funded := FundedRows(tx.outputs);
    var spent := if IsCoinbase(tx) then [] else SpentRows(tx.inputs, hash);
    if funded == [] && spent == [] then None else Some(TxRows(tx.txid, funded, spent))
  }

  function RowsIn(txs: seq<Tx>, hash: Hash160): seq<TxRows> {
    if txs == [] then []
    else
      var before := RowsIn(Init(txs), hash);
      var r := RowsOf(Last(txs), hash);
      if r.Some? then before + [r.value] else before
  }

  /** `parse_and_extract`, past the parsing. */
  function ExtractBlock(b: RawBlock, hash: Hash160): Block {
    Block(b.height, b.hash, b.prev, b.time, RowsIn(b.txs, hash))
  }

  function ExtractChain(bs: seq<RawBlock>, hash: Hash160): seq<Block> {
    if bs == [] then [] else ExtractChain(Init(bs), hash) + [ExtractBlock(Last(bs), hash)]
  }

  // --------------------------------------------------- what consensus promises

  function AllTxs(bs: seq<RawBlock>): seq<Tx> {
    if bs == [] then [] else AllTxs(Init(bs)) + Last(bs).txs
  }

  /** The outpoints the inputs of `tx` consume. */
  function Prevouts(tx: Tx): set<OutPoint> {
    if IsCoinbase(tx) then {} else set i | 0 <= i < |tx.inputs| :: tx.inputs[i].prevout
  }

  /** Output `c.op` of `tx` pays the program of `c`. */
  ghost predicate PaysTo(tx: Tx, c: Coin) {
    && c.op.txid == tx.txid && c.op.vout < |tx.outputs|
    && IsP2wpkh(tx.outputs[c.op.vout].script) && ProgramOf(tx.outputs[c.op.vout].script) == c.program
  }

  ghost predicate Paid(txs: seq<Tx>, c: Coin) {
    exists t :: t in txs && PaysTo(t, c)
  }

  ghost predicate Consumed(txs: seq<Tx>, o: OutPoint) {
    exists t :: t in txs && o in Prevouts(t)
  }

  /** BIP 141, "Witness program": spending a version 0 program of 20 bytes takes
      an empty scriptSig and a two-item witness whose second item hashes to it. */
  ghost predicate WitnessRule(txs: seq<Tx>, input: TxIn, hash: Hash160) {
    forall c :: Paid(txs, c) && c.op == input.prevout ==>
                  input.scriptSig == [] && |input.stack| == 2 && hash(input.stack[1]) == c.program
  }

  /** What consensus demands of the next transaction: a new txid, and inputs
      that are distinct, unconsumed, not its own and properly witnessed. */
  ghost predicate RawNext(txs: seq<Tx>, tx: Tx, hash: Hash160) {
    && (forall t :: t in txs ==> t.txid != tx.txid)
    && (forall o :: Consumed(txs, o) ==> o.txid != tx.txid)
    && (forall o :: o in Prevouts(tx) ==> o.txid != tx.txid && !Consumed(txs, o))
    && (forall i, j :: 0 <= i < j < |tx.inputs| ==> tx.inputs[i].prevout != tx.inputs[j].prevout)
    && (!IsCoinbase(tx) ==> forall i :: 0 <= i < |tx.inputs| ==> WitnessRule(txs, tx.inputs[i], hash))
  }

  ghost predicate RawValid(txs: seq<Tx>, hash: Hash160) {
    txs != [] ==> RawValid(Init(txs), hash) && RawNext(Init(txs), Last(txs), hash)
  }

  // ------------------------------------------------------ rows of one transaction

  lemma {:induction false} FundedRowsAre(outs: seq<TxOut>)
    ensures forall f :: f in FundedRows(outs) <==>
                        f.vout < |outs| && IsP2wpkh(outs[f.vout].script) &&
                        f.program == ProgramOf(outs[f.vout].script) && f.value == outs[f.vout].value
    ensures forall i, j :: 0 <= i < j < |FundedRows(outs)| ==> FundedRows(outs)[i].vout < FundedRows(outs)[j].vout
  {
    hide Num;
    if outs != [] {
      FundedRowsAre(Init(outs));
      var pre := FundedRows(Init(outs));
      assert forall i :: 0 <= i < |pre| ==> pre[i] in pre;
    }
  }

  lemma {:induction false} SpentRowsAre(inputs: seq<TxIn>, hash: Hash160)
    ensures forall s :: s in SpentRows(inputs, hash) <==>
                        exists i :: 0 <= i < |inputs| && inputs[i].prevout == s.prevout &&
                                    SpendProgram(inputs[i], hash) == Some(s.program)
  {
    hide SpendProgram;
    if inputs != [] {
      var pre := Init(inputs);
      SpentRowsAre(pre, hash);
      forall s
        ensures s in SpentRows(inputs, hash) <==>
                exists i :: 0 <= i < |inputs| && inputs[i].prevout == s.prevout &&
                            SpendProgram(inputs[i], hash) == Some(s.program)
      {
        if s in SpentRows(pre, hash) {
          var i :| 0 <= i < |pre| && pre[i].prevout == s.prevout && SpendProgram(pre[i], hash) == Some(s.program);
          assert inputs[i] == pre[i];
        }
        if i :| 0 <= i < |inputs| && inputs[i].prevout == s.prevout &&
                SpendProgram(inputs[i], hash) == Some(s.program) {
          if i < |pre| {
            assert pre[i] == inputs[i];
          }
        }
      }
    }
  }

  lemma {:induction false} SpentRowsDistinct(inputs: seq<TxIn>, hash: Hash160)
    requires forall i, j :: 0 <= i < j < |inputs| ==> inputs[i].prevout != inputs[j].prevout
    ensures forall i, j :: 0 <= i < j < |SpentRows(inputs, hash)| ==>
                             SpentRows(inputs, hash)[i].prevout != SpentRows(inputs, hash)[j].prevout
  {
    hide SpendProgram;
    if inputs != [] {
      var pre := Init(inputs);
      SpentRowsDistinct(pre, hash);
      SpentRowsAre(pre, hash);
      var rows := SpentRows(pre, hash);
      forall i | 0 <= i < |rows|
        ensures rows[i].prevout != Last(inputs).prevout
      {
        assert rows[i] in rows;
        var k :| 0 <= k < |pre| && pre[k].prevout == rows[i].prevout &&
                 SpendProgram(pre[k], hash) == Some(rows[i].program);
        assert inputs[k] == pre[k];
      }
    }
  }

  lemma {:induction false} NoRows(tx: Tx, hash: Hash160, c: Coin)
    requires RowsOf(tx, hash) == None
    ensures !PaysTo(tx, c)
  {
    hide Num;
    FundedRowsAre(tx.outputs);
    var value := if c.op.vout < |tx.outputs| then tx.outputs[c.op.vout].value else 0;
    assert Funded(c.program, c.op.vout, value) !in FundedRows(tx.outputs);
  }

  /** The rows fund exactly the P2WPKH outputs, each once. */
  lemma {:induction false} RowsFund(tx: Tx, hash: Hash160)
    requires RowsOf(tx, hash).Some?
    ensures var r := RowsOf(tx, hash).value;
            && r.txid == tx.txid && DistinctVouts(r)
            && forall c :: c in FundedCoins(r) <==> PaysTo(tx, c)
  {
    hide Num, SpentRows;
    var r := RowsOf(tx, hash).value;
    FundedRowsAre(tx.outputs);
    forall c
      ensures c in FundedCoins(r) <==> PaysTo(tx, c)
    {
      if PaysTo(tx, c) {
        assert Funded(c.program, c.op.vout, tx.outputs[c.op.vout].value) in r.funded;
      }
    }
  }

  /** The rows spend only what the inputs consume, and, by the witness rule,
      every consumed output that pays a program, under that program. */
  lemma {:induction false} RowsSpend(txs: seq<Tx>, tx: Tx, hash: Hash160)
    requires RawNext(txs, tx, hash) && RowsOf(tx, hash).Some?
    ensures var r := RowsOf(tx, hash).value;
            && DistinctSpends(r)
            && (forall s :: s in r.spent ==> s.prevout in Prevouts(tx))
            && (forall c, s :: Paid(txs, c) && s in r.spent && s.prevout == c.op ==> s.program == c.program)
            && (forall c :: Paid(txs, c) && c.op in Prevouts(tx) ==> c.op in SpentOuts(r))
  {
    hide Num, FundedRows, Paid, Consumed;
    var r := RowsOf(tx, hash).value;
    if !IsCoinbase(tx) {
      SpentRowsDistinct(tx.inputs, hash);
      SpentRowsAre(tx.inputs, hash);
      forall c | Paid(txs, c) && c.op in Prevouts(tx)
        ensures c.op in SpentOuts(r)
      {
        Attributed(txs, tx, hash, c);
      }
    }
  }

  /** A spend of an output paying a program is attributed to that program. */
  lemma {:induction false} Attributed(txs: seq<Tx>, tx: Tx, hash: Hash160, c: Coin)
    requires RawNext(txs, tx, hash) && Paid(txs, c) && c.op in Prevouts(tx)
    ensures RowsOf(tx, hash).Some? && Spent(c.program, c.op) in RowsOf(tx, hash).value.spent
  {
    hide Num, FundedRows, Paid, Consumed;
    var i :| 0 <= i < |tx.inputs| && tx.inputs[i].prevout == c.op;
    assert WitnessRule(txs, tx.inputs[i], hash);
    assert SpendProgram(tx.inputs[i], hash) == Some(c.program);
    SpentRowsAre(tx.inputs, hash);
    assert Spent(c.program, c.op) in SpentRows(tx.inputs, hash);
  }

  // ----------------------------------------------------- rows of a whole chain

  ghost function Txs(placed: seq<Placed>): seq<TxRows> {
    if placed == [] then [] else Txs(Init(placed)) + [Last(placed).tx]
  }

  /** What the extracted rows say of the transactions they come from. */
  ghost predicate Mirrors(placed: seq<Placed>, txs: seq<Tx>) {
    && ValidTxs(placed)
    && (forall c :: c in AllFunded(placed) <==> Paid(txs, c))
    && (forall o :: o in AllSpent(placed) ==> Consumed(txs, o))
    && (forall c :: Paid(txs, c) && Consumed(txs, c.op) ==> c.op in AllSpent(placed))
  }

  lemma {:induction false} SnocTxs(txs: seq<Tx>, tx: Tx)
    ensures forall c :: Paid(txs + [tx], c) <==> Paid(txs, c) || PaysTo(tx, c)
    ensures forall o :: Consumed(txs + [tx], o) <==> Consumed(txs, o) || o in Prevouts(tx)
  {
    hide PaysTo, Prevouts;
    var all := txs + [tx];
    assert tx in all && forall t :: t in txs ==> t in all;
  }

  lemma {:induction false} SkipMirrors(placed: seq<Placed>, txs: seq<Tx>, tx: Tx, hash: Hash160)
    requires Mirrors(placed, txs) && RawNext(txs, tx, hash) && RowsOf(tx, hash) == None
    ensures Mirrors(placed, txs + [tx])
  {
    hide ValidTxs, AllFunded, AllSpent, PaysTo, Prevouts, Paid, Consumed, RowsOf, WitnessRule;
    SnocTxs(txs, tx);
    forall c
      ensures !PaysTo(tx, c)
    {
      NoRows(tx, hash, c);
    }
    forall c | Paid(txs, c) && c.op in Prevouts(tx)
      ensures false
    {
      Attributed(txs, tx, hash, c);
    }
  }

  lemma {:induction false} FundedOutHasCoin(placed: seq<Placed>, o: OutPoint)
    requires o in AllFundedOuts(placed)
    ensures exists c :: c in AllFunded(placed) && c.op == o
  {
    var tx := Last(placed).tx;
    if o in FundedOuts(tx) {
      var f :| f in tx.funded && OutPoint(tx.txid, f.vout) == o;
      assert CoinOf(tx.txid, f) in FundedCoins(tx);
      assert CoinOf(tx.txid, f) in AllFunded(placed);
    } else {
      FundedOutHasCoin(Init(placed), o);
    }
  }

  lemma {:induction false} NextIsValid(placed: seq<Placed>, txs: seq<Tx>, tx: Tx, hash: Hash160)
    requires Mirrors(placed, txs) && RawNext(txs, tx, hash) && RowsOf(tx, hash).Some?
    ensures ValidNext(placed, RowsOf(tx, hash).value)
  {
    hide ValidTxs, AllFunded, AllSpent, AllFundedOuts, Prevouts, Consumed, RowsOf, WitnessRule, DistinctVouts,
      DistinctSpends;
    var r := RowsOf(tx, hash).value;
    RowsFund(tx, hash);
    RowsSpend(txs, tx, hash);
    forall o | o in FundedOuts(r)
      ensures o.txid == tx.txid
    {
    }
    forall o | o in AllFundedOuts(placed)
      ensures o.txid != tx.txid
    {
      FundedOutHasCoin(placed, o);
      var c :| c in AllFunded(placed) && c.op == o;
      assert Paid(txs, c);
    }
  }

  lemma {:induction false} NextMirrors(placed: seq<Placed>, txs: seq<Tx>, tx: Tx, hash: Hash160, height: nat)
    requires Mirrors(placed, txs) && RawNext(txs, tx, hash) && RowsOf(tx, hash).Some?
    ensures Mirrors(placed + [Placed(RowsOf(tx, hash).value, height)], txs + [tx])
  {
    hide RowsOf, WitnessRule, DistinctVouts, DistinctSpends, Paid, Consumed, ValidNext, Prevouts, PaysTo, FundedCoins;
    var r := RowsOf(tx, hash).value;
    var all := placed + [Placed(r, height)];
    assert Init(all) == placed && Last(all).tx == r;
    NextIsValid(placed, txs, tx, hash);
    SnocTxs(txs, tx);
    RowsFund(tx, hash);
    RowsSpend(txs, tx, hash);
    assert AllFunded(all) == AllFunded(placed) + FundedCoins(r);
    assert AllSpent(all) == AllSpent(placed) + SpentOuts(r);
    forall c | PaysTo(tx, c)
      ensures !Consumed(txs + [tx], c.op)
    {
      OwnOutput(txs, tx, hash, c);
    }
  }

  lemma {:induction false} OwnOutput(txs: seq<Tx>, tx: Tx, hash: Hash160, c: Coin)
    requires RawNext(txs, tx, hash) && PaysTo(tx, c)
    ensures !Consumed(txs, c.op) && c.op !in Prevouts(tx)
  {
    hide Consumed, Prevouts;
  }

  lemma {:induction false} RowsMirror(placed: seq<Placed>, txs: seq<Tx>, hash: Hash160)
    requires RawValid(txs, hash) && Txs(placed) == RowsIn(txs, hash)
    ensures Mirrors(placed, txs)
    decreases |txs|
  {
    hide RowsOf, RawNext, Mirrors, Txs, RowsIn, RawValid;
    if txs == [] {
      NoTxs(hash);
      NoPlaced(placed);
      NothingMirrors();
    } else {
      var pre, tx := Init(txs), Last(txs);
      assert txs == pre + [tx];
      RawInit(txs, hash);
      var r := RowsOf(tx, hash);
      RowsInSnoc(pre, tx, hash);
      if r.None? {
        RowsMirror(placed, pre, hash);
        SkipMirrors(placed, pre, tx, hash);
      } else {
        NoPlaced(placed);
        var before, last := Init(placed), Last(placed);
        assert placed == before + [last];
        TxsSnoc(before, last);
        LastsAgree(Txs(before), last.tx, RowsIn(pre, hash), r.value);
        RowsMirror(before, pre, hash);
        NextMirrors(before, pre, tx, hash, last.height);
        assert last == Placed(r.value, last.height);
      }
    }
  }

  lemma {:induction false} RawInit(txs: seq<Tx>, hash: Hash160)
    requires RawValid(txs, hash) && txs != []
    ensures RawValid(Init(txs), hash) && RawNext(Init(txs), Last(txs), hash)
  {
  }

  lemma {:induction false} LastsAgree<T>(a: seq<T>, x: T, b: seq<T>, y: T)
    requires a + [x] == b + [y]
    ensures a == b && x == y
  {
    var s := a + [x];
    assert x == s[|s| - 1] && a == s[..|s| - 1];
    assert y == s[|s| - 1] && b == s[..|s| - 1];
  }

  lemma {:induction false} NoPlaced(placed: seq<Placed>)
    ensures Txs(placed) == [] <==> placed == []
  {
  }

  lemma {:induction false} RowsInSnoc(txs: seq<Tx>, tx: Tx, hash: Hash160)
    ensures RowsIn(txs + [tx], hash) == if RowsOf(tx, hash).Some? then RowsIn(txs, hash) + [RowsOf(tx, hash).value]
                                        else RowsIn(txs, hash)
  {
    assert Init(txs + [tx]) == txs;
  }

  lemma {:induction false} NothingMirrors()
    ensures Mirrors([], [])
  {
  }

  lemma {:induction false} TxsPlace(before: seq<Placed>, rows: seq<TxRows>, height: nat)
    ensures Txs(before + Place(rows, height)) == Txs(before) + rows
    decreases |rows|
  {
    hide Txs, Place;
    if rows == [] {
      assert |Place(rows, height)| == 0 by { PlaceSize(rows, height); }
      assert before + Place(rows, height) == before;
    } else {
      PlaceLast(before, rows, height);
      TxsPlace(before, Init(rows), height);
      TxsSnoc(before + Place(Init(rows), height), Placed(Last(rows), height));
      assert rows == Init(rows) + [Last(rows)];
    }
  }

  lemma {:induction false} PlaceSize(rows: seq<TxRows>, height: nat)
    ensures |Place(rows, height)| == |rows|
  {
  }

  lemma {:induction false} TxsSnoc(placed: seq<Placed>, p: Placed)
    ensures Txs(placed + [p]) == Txs(placed) + [p.tx]
  {
    assert Init(placed + [p]) == placed;
  }

  lemma {:induction false} RowsInConcat(a: seq<Tx>, b: seq<Tx>, hash: Hash160)
    ensures RowsIn(a + b, hash) == RowsIn(a, hash) + RowsIn(b, hash)
    decreases |b|
  {
    hide RowsOf;
    if b == [] {
      assert a + b == a;
    } else {
      assert Init(a + b) == a + Init(b);
      RowsInConcat(a, Init(b), hash);
    }
  }

  lemma {:induction false} ChainRows(bs: seq<RawBlock>, hash: Hash160)
    ensures Txs(Flat(ExtractChain(bs, hash))) == RowsIn(AllTxs(bs), hash)
  {
    hide RowsOf, Txs, RowsIn, Place;
    if bs == [] {
      NoTxs(hash);
    } else {
      var pre, b := Init(bs), Last(bs);
      var chain := ExtractChain(bs, hash);
      ChainRows(pre, hash);
      assert Init(chain) == ExtractChain(pre, hash) && Last(chain) == ExtractBlock(b, hash);
      TxsPlace(Flat(Init(chain)), RowsIn(b.txs, hash), b.height);
      RowsInConcat(AllTxs(pre), b.txs, hash);
    }
  }

  lemma {:induction false} NoTxs(hash: Hash160)
    ensures Txs([]) == [] && RowsIn([], hash) == []
  {
  }

  /** The index of a consensus-valid chain: its rows meet what the store relies
      on, and its coins are exactly the P2WPKH outputs no input consumes, though
      no input was ever looked up. */
  lemma {:induction false} IndexIsTheTrueUtxo(bs: seq<RawBlock>, hash: Hash160, c: Coin)
    requires RawValid(AllTxs(bs), hash)
    ensures ValidChain(ExtractChain(bs, hash))
    ensures c in Replay(ExtractChain(bs, hash)).utxo <==> Paid(AllTxs(bs), c) && !Consumed(AllTxs(bs), c.op)
  {
    hide RowsIn, RawValid, Paid, Consumed, Flat, AllFunded, AllSpent, ValidTxs, Utxo, ApplyBlocks, ExtractChain;
    var chain := ExtractChain(bs, hash);
    ChainRows(bs, hash);
    RowsMirror(Flat(chain), AllTxs(bs), hash);
    UtxoIsFundedMinusSpent(Flat(chain));
    ReplayFlat(chain);
  }

  // -------------------------------------------------- no transaction is missed

  lemma {:induction false} RawPrefix(txs: seq<Tx>, hash: Hash160, k: nat)
    requires RawValid(txs, hash) && k < |txs|
    ensures RawNext(txs[..k], txs[k], hash)
  {
    hide RawNext;
    if k < |txs| - 1 {
      RawPrefix(Init(txs), hash, k);
      assert Init(txs)[..k] == txs[..k];
    }
  }

  lemma {:induction false} RowFound(txs: seq<Tx>, hash: Hash160, k: nat)
    requires k < |txs| && RowsOf(txs[k], hash).Some?
    ensures exists n :: 0 <= n < |RowsIn(txs, hash)| && RowsIn(txs, hash)[n] == RowsOf(txs[k], hash).value
  {
    hide RowsOf;
    if k < |txs| - 1 {
      RowFound(Init(txs), hash, k);
      var rows := RowsIn(Init(txs), hash);
      var n :| 0 <= n < |rows| && rows[n] == RowsOf(txs[k], hash).value;
      assert RowsIn(txs, hash)[n] == rows[n];
    } else {
      assert RowsIn(txs, hash)[|RowsIn(txs, hash)| - 1] == RowsOf(txs[k], hash).value;
    }
  }

  lemma {:induction false} TxsAt(placed: seq<Placed>, n: nat)
    ensures |Txs(placed)| == |placed|
    ensures n < |placed| ==> Txs(placed)[n] == placed[n].tx
  {
    if placed != [] {
      TxsAt(Init(placed), n);
    }
  }

  lemma {:induction false} Touches(txs: seq<Tx>, tx: Tx, hash: Hash160, c: Coin)
    requires RawNext(txs, tx, hash) && (PaysTo(tx, c) || (Paid(txs, c) && c.op in Prevouts(tx)))
    ensures RowsOf(tx, hash).Some? && c.program in Touched(RowsOf(tx, hash).value)
  {
    hide RowsOf, RawNext, Paid, Prevouts, PaysTo;
    if PaysTo(tx, c) {
      if RowsOf(tx, hash).None? {
        NoRows(tx, hash, c);
      }
      RowsFund(tx, hash);
      var r := RowsOf(tx, hash).value;
      assert c in FundedCoins(r);
    } else {
      Attributed(txs, tx, hash, c);
    }
  }

  /** Every transaction that pays a program, or consumes an output that paid it,
      is in that program's history under its own txid. */
  lemma {:induction false} HistoryMissesNothing(bs: seq<RawBlock>, hash: Hash160, k: nat, c: Coin)
    requires RawValid(AllTxs(bs), hash) && k < |AllTxs(bs)|
    requires PaysTo(AllTxs(bs)[k], c) || (Paid(AllTxs(bs)[..k], c) && c.op in Prevouts(AllTxs(bs)[k]))
    ensures var rows := Replay(ExtractChain(bs, hash));
            exists n :: n in rows.txids && rows.txids[n] == AllTxs(bs)[k].txid && Touch(c.program, n) in rows.history
  {
    hide RowsIn, RawValid, RawNext, Paid, PaysTo, Prevouts, Flat, ApplyBlocks, ExtractChain, Txs, Histories, Touched;
    var txs, chain := AllTxs(bs), ExtractChain(bs, hash);
    RawPrefix(txs, hash, k);
    Touches(txs[..k], txs[k], hash, c);
    RowFound(txs, hash, k);
    ChainRows(bs, hash);
    var n :| 0 <= n < |RowsIn(txs, hash)| && RowsIn(txs, hash)[n] == RowsOf(txs[k], hash).value;
    TxsAt(Flat(chain), n);
    HistoryIsTouches(Flat(chain), c.program, n);
    ReplayFlat(chain);
    assert Replay(chain).txids[n] == txs[k].txid;
  }

  // ------------------------------------------- and nothing that does not belong

  /** The script of a program, byte by byte: version 0, then 20 bytes. */
  lemma {:induction false} P2wpkhScript(script: Bytes, p: Program)
    requires p < Pow256(20)
    ensures IsP2wpkh(script) && ProgramOf(script) == p <==> script == [0, 0x14] + BE(p, 20)
  {
    hide BE, Num, Pow256;
    NumBE(p, 20);
    if IsP2wpkh(script) {
      BENum(script[2..22]);
      assert script == [0, 0x14] + script[2..22];
    }
    assert ([0, 0x14] + BE(p, 20))[2..22] == BE(p, 20);
  }

  lemma {:induction false} ProgramFits(script: Bytes)
    requires IsP2wpkh(script)
    ensures ProgramOf(script) < Pow256(20)
  {
    BENum(script[2..22]);
  }

  /** An output of `tx` carries the script of `p`. */
  ghost predicate PaysProgram(tx: Tx, p: Program) {
    exists v :: 0 <= v < |tx.outputs| && tx.outputs[v].script == [0, 0x14] + BE(p, 20)
  }

  /** An input of `tx` has the witness that spending an output to `p` takes. */
  ghost predicate WitnessesProgram(tx: Tx, p: Program, hash: Hash160) {
    && !(|tx.inputs| == 1 && tx.inputs[0].prevout == OutPoint(0, 0xffff_ffff))
    && exists i :: && 0 <= i < |tx.inputs| && tx.inputs[i].scriptSig == []
                   && |tx.inputs[i].stack| == 2 && hash(tx.inputs[i].stack[1]) == p
  }

  lemma {:induction false} FundsExactly(tx: Tx, p: Program)
    requires p < Pow256(20)
    ensures (exists f :: f in FundedRows(tx.outputs) && f.program == p) <==> PaysProgram(tx, p)
  {
    hide Num, BE, Pow256, ProgramOf, IsP2wpkh, FundedRows;
    FundedRowsAre(tx.outputs);
    forall script: Bytes
      ensures IsP2wpkh(script) && ProgramOf(script) == p <==> script == [0, 0x14] + BE(p, 20)
    {
      P2wpkhScript(script, p);
    }
    if v :| 0 <= v < |tx.outputs| && tx.outputs[v].script == [0, 0x14] + BE(p, 20) {
      assert Funded(p, v, tx.outputs[v].value) in FundedRows(tx.outputs);
    }
  }

  lemma {:induction false} SpendsExactly(tx: Tx, p: Program, hash: Hash160)
    ensures !IsCoinbase(tx) && (exists s :: s in SpentRows(tx.inputs, hash) && s.program == p) <==>
            WitnessesProgram(tx, p, hash)
  {
    hide SpentRows;
    SpentRowsAre(tx.inputs, hash);
    if i :| && 0 <= i < |tx.inputs| && tx.inputs[i].scriptSig == []
            && |tx.inputs[i].stack| == 2 && hash(tx.inputs[i].stack[1]) == p {
      assert Spent(p, tx.inputs[i].prevout) in SpentRows(tx.inputs, hash);
    }
  }

  /** The rows of a transaction touch exactly the programs it pays and the ones its
      witnesses show. */
  lemma {:induction false} TouchesExactly(tx: Tx, p: Program, hash: Hash160)
    requires p < Pow256(20)
    ensures RowsOf(tx, hash).Some? && p in Touched(RowsOf(tx, hash).value) <==>
            PaysProgram(tx, p) || WitnessesProgram(tx, p, hash)
  {
    hide FundedRows, SpentRows, PaysProgram, WitnessesProgram, IsCoinbase, Pow256;
    FundsExactly(tx, p);
    SpendsExactly(tx, p, hash);
  }

  lemma {:induction false} RowComesFrom(txs: seq<Tx>, hash: Hash160, n: nat) returns (k: nat)
    requires n < |RowsIn(txs, hash)|
    ensures k < |txs| && RowsOf(txs[k], hash) == Some(RowsIn(txs, hash)[n])
  {
    hide RowsOf;
    if n < |RowsIn(Init(txs), hash)| {
      k := RowComesFrom(Init(txs), hash, n);
    } else {
      k := |txs| - 1;
    }
  }

  lemma {:induction false} OwnTxid(txs: seq<Tx>, hash: Hash160, i: nat, j: nat)
    requires RawValid(txs, hash) && i < j < |txs|
    ensures txs[i].txid != txs[j].txid
  {
    hide RawValid;
    RawPrefix(txs, hash, j);
    assert txs[..j][i] == txs[i];
  }

  /** A program's history is exactly the transactions that pay it or show a witness
      for it: none is missing and none is there without reason. */
  lemma {:induction false} HistoryIsExact(bs: seq<RawBlock>, hash: Hash160, k: nat, p: Program)
    requires RawValid(AllTxs(bs), hash) && k < |AllTxs(bs)| && p < Pow256(20)
    ensures var rows, tx := Replay(ExtractChain(bs, hash)), AllTxs(bs)[k];
            (exists n :: n in rows.txids && rows.txids[n] == tx.txid && Touch(p, n) in rows.history) <==>
            PaysProgram(tx, p) || WitnessesProgram(tx, p, hash)
  {
    hide RowsIn, RowsOf, RawValid, PaysProgram, WitnessesProgram, Flat, ApplyBlocks, ExtractChain, Txs, Histories,
      Touched, Pow256;
    var txs, chain := AllTxs(bs), ExtractChain(bs, hash);
    var rows := Replay(chain);
    TouchesExactly(txs[k], p, hash);
    ChainRows(bs, hash);
    ReplayFlat(chain);
    if PaysProgram(txs[k], p) || WitnessesProgram(txs[k], p, hash) {
      RowFound(txs, hash, k);
      var n :| 0 <= n < |RowsIn(txs, hash)| && RowsIn(txs, hash)[n] == RowsOf(txs[k], hash).value;
      TxsAt(Flat(chain), n);
      HistoryIsTouches(Flat(chain), p, n);
      RowTxid(txs[k], hash);
      assert rows.txids[n] == txs[k].txid;
    }
    if n :| n in rows.txids && rows.txids[n] == txs[k].txid && Touch(p, n) in rows.history {
      TxsAt(Flat(chain), n);
      HistoryIsTouches(Flat(chain), p, n);
      var j := RowComesFrom(txs, hash, n);
      RowTxid(txs[j], hash);
      if j < k {
        OwnTxid(txs, hash, j, k);
      } else if k < j {
        OwnTxid(txs, hash, k, j);
      }
    }
  }

  lemma {:induction false} RowTxid(tx: Tx, hash: Hash160)
    ensures RowsOf(tx, hash).Some? ==> RowsOf(tx, hash).value.txid == tx.txid
  {
  }
}
