/** The values the index is built from. A fixed-width byte string (a 20-byte
    witness program, a 32-byte txid or block hash) is identified with the
    big-endian number it spells; module `Keys` proves that encoding exact. */
module Types {

  type Program = nat
  type Txid = nat
  type BlockHash = nat
  type TxNum = nat

  datatype Option<+T> = None | Some(value: T)

  datatype Result<+T, +E> = Ok(value: T) | Err(error: E)

  datatype OutPoint = OutPoint(txid: Txid, vout: nat)

  /** A P2WPKH output of a transaction. */
  datatype Funded = Funded(program: Program, vout: nat, value: nat)

  /** A P2WPKH-looking input of a transaction. */
  datatype Spent = Spent(program: Program, prevout: OutPoint)

  datatype TxRows = TxRows(txid: Txid, funded: seq<Funded>, spent: seq<Spent>)

  datatype Block = Block(height: nat, hash: BlockHash, prev: BlockHash, time: nat, txs: seq<TxRows>)

  /** A `utxo` key. */
  datatype Coin = Coin(program: Program, op: OutPoint)

  /** A `utxo` value. */
  datatype UtxoVal = UtxoVal(value: nat, height: nat)

  /** A `history` key. */
  datatype Touch = Touch(program: Program, txnum: TxNum)

  /** A `blocks` value. */
  datatype BlockRec = BlockRec(hash: BlockHash, time: nat, firstTxnum: TxNum, nTxs: nat)

  /** The `meta.tip` value. */
  datatype Tip = Tip(height: nat, hash: BlockHash)

  const MAX_TXNUM: nat := 0xff_ffff_ffff

  function Last<T>(s: seq<T>): T
    requires s != []
  {
    s[|s| - 1]
  }

  function Init<T>(s: seq<T>): seq<T>
    requires s != []
  {
    s[..|s| - 1]
  }

  function ToSet<T>(s: seq<T>): set<T> {
    set x | x in s
  }

  lemma {:induction false} SubsetSize<T>(a: set<T>, b: set<T>)
    requires a <= b
    ensures |a| <= |b|
  {
    assert b == a + (b - a);
  }
}
