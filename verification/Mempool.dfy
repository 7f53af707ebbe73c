/** The mempool overlay: an immutable view rebuilt from the tracked rows, the
    incremental tracker, and the UTXO listing that merges it with the index. */
module Mempool {
  import opened Types
  import opened Ledger
  import opened Chain
  import opened Storage

  datatype View = View(
    txs: map<Txid, TxRows>,
    byProgram: map<Program, set<Txid>>,
    spent: set<OutPoint>)

  // ---------------------------------------------------- what a view is

  ghost function PoolSpent(txs: map<Txid, TxRows>): set<OutPoint> {
    set id, s | id in txs && s in txs[id].spent :: s.prevout
  }

  ghost function Touching(txs: map<Txid, TxRows>, p: Program): set<Txid> {
    set id | id in txs && p in Touched(txs[id])
  }

  /** Rows are filed under their own txid, with distinct outputs. */
  ghost predicate WellFormed(txs: map<Txid, TxRows>) {
    forall id :: id in txs ==> txs[id].txid == id && DistinctVouts(txs[id])
  }

  /** `v` is the view of exactly the transactions `txs`. */
  ghost predicate IsView(v: View, txs: map<Txid, TxRows>) {
    && v.txs == txs
    && v.spent == PoolSpent(txs)
    && (forall p :: (p in v.byProgram <==> Touching(txs, p) != {}) &&
                    (p in v.byProgram ==> v.byProgram[p] == Touching(txs, p)))
  }

  function TxidsFor(v: View, p: Program): set<Txid> {
    if p in v.byProgram then v.byProgram[p] else {}
  }

  lemma {:induction false} TxidsAreTouching(v: View, txs: map<Txid, TxRows>, p: Program)
    requires IsView(v, txs)
    ensures TxidsFor(v, p) == Touching(txs, p)
  {
  }

  /** Transactions determine their view: an incremental one equals a rebuild. */
  lemma {:induction false} ViewsAgree(v: View, w: View, txs: map<Txid, TxRows>)
    requires IsView(v, txs) && IsView(w, txs)
    ensures v == w
  {
    hide Touching, PoolSpent;
    assert v.byProgram.Keys == w.byProgram.Keys;
    assert v.byProgram == w.byProgram;
  }

  // ------------------------------------------------------------- rebuilding

  method BuildSpent(txs: map<Txid, TxRows>) returns (spent: set<OutPoint>)
    ensures spent == PoolSpent(txs)
  {
    spent := {};
    var rest := txs.Keys;
    while rest != {}
      invariant rest <= txs.Keys
      invariant spent == set id, s | id in txs && id !in rest && s in txs[id].spent :: s.prevout
      decreases rest
    {
      var id :| id in rest;
      var more := set s | s in txs[id].spent :: s.prevout;
      rest := rest - {id};
      spent := spent + more;
    }
  }

  method BuildPrograms(txs: map<Txid, TxRows>) returns (filed: map<Program, set<Txid>>)
    ensures forall p :: (p in filed <==> Touching(txs, p) != {}) && (p in filed ==> filed[p] == Touching(txs, p))
  {
    filed := map[];
    var rest := txs.Keys;
    while rest != {}
      invariant rest <= txs.Keys && FiledBut(txs, filed, rest)
      decreases rest
    {
      var id :| id in rest;
      ghost var was := filed;
      filed := FileUnder(filed, id, Touched(txs[id]));
      FiledOneMore(txs, was, filed, id, rest);
      rest := rest - {id};
    }
    forall p
      ensures (p in filed <==> Touching(txs, p) != {}) && (p in filed ==> filed[p] == Touching(txs, p))
    {
      assert Touching(txs, p) - rest == Touching(txs, p);
    }
  }

  /** `filed` holds, per program, the touching transactions outside `rest`. */
  ghost predicate FiledBut(txs: map<Txid, TxRows>, filed: map<Program, set<Txid>>, rest: set<Txid>) {
    && (forall p :: p in filed ==> filed[p] != {} && filed[p] == Touching(txs, p) - rest)
    && (forall p :: p !in filed ==> Touching(txs, p) - rest == {})
  }

  method FileUnder(filed: map<Program, set<Txid>>, id: Txid, touched: set<Program>)
    returns (filed': map<Program, set<Txid>>)
    ensures filed'.Keys == filed.Keys + touched
    ensures forall p :: p in touched ==> filed'[p] == (if p in filed then filed[p] else {}) + {id}
    ensures forall p :: p in filed && p !in touched ==> filed'[p] == filed[p]
  {
    filed' := filed;
    var left := touched;
    while left != {}
      invariant left <= touched && filed'.Keys == filed.Keys + (touched - left)
      invariant forall p :: p in touched - left ==> filed'[p] == (if p in filed then filed[p] else {}) + {id}
      invariant forall p :: p in filed && p !in touched - left ==> filed'[p] == filed[p]
      decreases left
    {
      var p :| p in left;
      filed' := filed'[p := (if p in filed' then filed'[p] else {}) + {id}];
      left := left - {p};
    }
  }

  lemma {:induction false} FiledOneMore(txs: map<Txid, TxRows>, filed: map<Program, set<Txid>>,
                                        filed': map<Program, set<Txid>>, id: Txid, rest: set<Txid>)
    requires id in rest && rest <= txs.Keys && FiledBut(txs, filed, rest)
    requires filed'.Keys == filed.Keys + Touched(txs[id])
    requires forall p :: p in Touched(txs[id]) ==> filed'[p] == (if p in filed then filed[p] else {}) + {id}
    requires forall p :: p in filed && p !in Touched(txs[id]) ==> filed'[p] == filed[p]
    ensures FiledBut(txs, filed', rest - {id})
  {
    hide Touched;
    forall p
      ensures Touching(txs, p) - (rest - {id}) ==
              (Touching(txs, p) - rest) + (if p in Touched(txs[id]) then {id} else {})
    {
    }
  }

  /** Rebuild the whole view. */
  method Build(txs: map<Txid, TxRows>) returns (v: View)
    ensures IsView(v, txs)
  {
    hide PoolSpent, Touching;
    var spent := BuildSpent(txs);
    var filed := BuildPrograms(txs);
    v := View(txs, filed, spent);
  }

  // ----------------------------------------------------- the merged listing

  /** A listed coin: `height` is `None` while unconfirmed. */
  datatype Row = Row(op: OutPoint, value: nat, height: Option<nat>)

  ghost predicate DistinctOps(rows: seq<Row>) {
    forall i, j :: 0 <= i < j < |rows| ==> rows[i].op != rows[j].op
  }

  function Ops(rows: seq<Row>): set<OutPoint> {
    set r | r in rows :: r.op
  }

  /** Outputs to `p` a pool transaction creates and no pool transaction spends. */
  ghost function PendingCoins(txs: map<Txid, TxRows>, p: Program): set<(OutPoint, nat)> {
    set id, f | id in txs && f in txs[id].funded && f.program == p &&
                OutPoint(id, f.vout) !in PoolSpent(txs) :: (OutPoint(id, f.vout), f.value)
  }

  ghost predicate Pays(fs: seq<Funded>, p: Program, r: Row) {
    exists f :: f in fs && f.program == p && f.vout == r.op.vout && f.value == r.value
  }

  /** One transaction's part of `utxos_for`. */
  method PendingOf(v: View, id: Txid, p: Program) returns (rows: seq<Row>)
    requires id in v.txs && DistinctVouts(v.txs[id])
    ensures forall r :: r in rows <==>
                        r.height == None && r.op.txid == id && r.op !in v.spent && Pays(v.txs[id].funded, p, r)
    ensures DistinctOps(rows)
  {
    rows := [];
    var fs := v.txs[id].funded;
    for i := 0 to |fs|
      invariant forall r :: r in rows <==>
                            r.height == None && r.op.txid == id && r.op !in v.spent && Pays(fs[..i], p, r)
      invariant DistinctOps(rows)
    {
      var row := Row(OutPoint(id, fs[i].vout), fs[i].value, None);
      assert fs[..i + 1] == fs[..i] + [fs[i]];
      if fs[i].program == p && row.op !in v.spent {
        rows := rows + [row];
      }
    }
    assert fs[..|fs|] == fs;
  }

  /** The pool's own contribution to the coins of `p`. */
  method UtxosFor(v: View, p: Program, ghost txs: map<Txid, TxRows>) returns (rows: seq<Row>)
    requires IsView(v, txs) && WellFormed(txs)
    ensures DistinctOps(rows)
    ensures forall r :: r in rows <==> r.height == None && (r.op, r.value) in PendingCoins(txs, p)
  {
    rows := [];
    TxidsAreTouching(v, txs, p);
    var rest := TxidsFor(v, p);
    ghost var done: set<Txid> := {};
    while rest != {}
      invariant done + rest == Touching(txs, p) && done !! rest
      invariant DistinctOps(rows)
      invariant forall r :: r in rows <==>
                            r.height == None && r.op.txid in done && (r.op, r.value) in PendingCoins(txs, p)
      decreases rest
    {
      var id :| id in rest;
      var more := PendingOf(v, id, p);
      PendingMore(txs, p, id, more, v);
      DistinctConcat(rows, more);
      rows := rows + more;
      done := done + {id};
      rest := rest - {id};
    }
    PendingTouches(txs, p);
  }

  lemma {:induction false} PendingMore(txs: map<Txid, TxRows>, p: Program, id: Txid, more: seq<Row>, v: View)
    requires id in txs && v.txs == txs && v.spent == PoolSpent(txs)
    requires forall r :: r in more <==>
                         r.height == None && r.op.txid == id && r.op !in v.spent && Pays(v.txs[id].funded, p, r)
    ensures forall r :: r in more <==> r.height == None && r.op.txid == id && (r.op, r.value) in PendingCoins(txs, p)
  {
  }

  lemma {:induction false} PendingTouches(txs: map<Txid, TxRows>, p: Program)
    ensures forall o, x :: (o, x) in PendingCoins(txs, p) ==> o.txid in Touching(txs, p)
  {
  }

  lemma {:induction false} DistinctConcat(a: seq<Row>, b: seq<Row>)
    requires DistinctOps(a) && DistinctOps(b)
    requires forall x, y :: x in a && y in b ==> x.op != y.op
    ensures DistinctOps(a + b)
  {
  }

  /** Exactly the confirmed rows no pool transaction spends, and the pool's own
      unspent outputs that are not confirmed. */
  ghost predicate Lists(rows: seq<Row>, confirmed: seq<(OutPoint, UtxoVal)>, txs: map<Txid, TxRows>, p: Program) {
    && (forall o, v: UtxoVal :: Row(o, v.value, Some(v.height)) in rows <==>
                                o !in PoolSpent(txs) && (o, v) in confirmed)
    && (forall o, x: nat :: Row(o, x, None) in rows <==>
                            (o, x) in PendingCoins(txs, p) && forall c :: c in confirmed ==> c.0 != o)
  }

  /** The merged listing: what the chain has and the pool leaves, then what the
      pool adds, each outpoint once. */
  method UtxoRows(confirmed: seq<(OutPoint, UtxoVal)>, v: View, p: Program, ghost txs: map<Txid, TxRows>)
    returns (rows: seq<Row>)
    requires IsView(v, txs) && WellFormed(txs)
    requires forall i, j :: 0 <= i < j < |confirmed| ==> confirmed[i].0 != confirmed[j].0
    ensures DistinctOps(rows)
    ensures forall r :: r in rows ==> r.op !in PoolSpent(txs)
    ensures Lists(rows, confirmed, txs, p)
  {
    rows := [];
    for i := 0 to |confirmed|
      invariant DistinctOps(rows)
      invariant forall r :: r in rows <==>
                            r.height.Some? && r.op !in v.spent &&
                            (r.op, UtxoVal(r.value, r.height.value)) in confirmed[..i]
    {
      var c := confirmed[i];
      assert confirmed[..i + 1] == confirmed[..i] + [c];
      if c.0 !in v.spent {
        rows := rows + [Row(c.0, c.1.value, Some(c.1.height))];
      }
    }
    assert confirmed[..|confirmed|] == confirmed;
    var listed := Ops(rows);
    var pending := UtxosFor(v, p, txs);
    PendingUnspent(txs, p);
    ghost var first := rows;
    for i := 0 to |pending|
      invariant DistinctOps(rows)
      invariant forall r :: r in rows <==> r in first || (r in pending[..i] && r.op !in listed)
    {
      assert pending[..i + 1] == pending[..i] + [pending[i]];
      if pending[i].op !in listed {
        rows := rows + [pending[i]];
      }
    }
    assert pending[..|pending|] == pending;
    ListedOps(confirmed, first, listed, txs);
  }

  lemma {:induction false} PendingUnspent(txs: map<Txid, TxRows>, p: Program)
    ensures forall o, x :: (o, x) in PendingCoins(txs, p) ==> o !in PoolSpent(txs)
  {
  }

  lemma {:induction false} ListedOps(confirmed: seq<(OutPoint, UtxoVal)>, first: seq<Row>, listed: set<OutPoint>,
                                     txs: map<Txid, TxRows>)
    requires listed == Ops(first)
    requires forall r :: r in first <==>
                         r.height.Some? && r.op !in PoolSpent(txs) &&
                         (r.op, UtxoVal(r.value, r.height.value)) in confirmed
    ensures forall o :: o !in PoolSpent(txs) ==> (o in listed <==> exists c :: c in confirmed && c.0 == o)
  {
    forall o | o !in PoolSpent(txs)
      ensures o in listed <==> exists c :: c in confirmed && c.0 == o
    {
      if c :| c in confirmed && c.0 == o {
        assert Row(c.0, c.1.value, Some(c.1.height)) in first;
      }
    }
  }

  // ------------------------------------- the listing is the next block's state

  /** `order` lists every pool transaction once. */
  ghost predicate Orders(order: seq<TxRows>, txs: map<Txid, TxRows>) {
    && (forall i :: 0 <= i < |order| ==> order[i].txid in txs && txs[order[i].txid] == order[i])
    && (forall id :: id in txs ==> txs[id] in order)
  }

  ghost predicate FundsIn(order: seq<TxRows>, c: Coin) {
    exists t :: t in order && c in FundedCoins(t)
  }

  ghost predicate SpendsIn(order: seq<TxRows>, o: OutPoint) {
    exists t :: t in order && o in SpentOuts(t)
  }

  lemma {:induction false} PlacedSets(before: seq<Placed>, order: seq<TxRows>, height: nat, c: Coin)
    ensures c in AllFunded(before + Place(order, height)) <==> c in AllFunded(before) || FundsIn(order, c)
    ensures c.op in AllSpent(before + Place(order, height)) <==> c.op in AllSpent(before) || SpendsIn(order, c.op)
    decreases |order|
  {
    hide FundedCoins, SpentOuts, Place;
    if order == [] {
      assert before + Place(order, height) == before by { PlaceNone(before, height); }
    } else {
      PlaceLast(before, order, height);
      var mid := before + Place(Init(order), height);
      assert Init(before + Place(order, height)) == mid;
      PlacedSets(before, Init(order), height, c);
      assert order == Init(order) + [Last(order)];
      assert Last(order) in order;
    }
  }

  lemma {:induction false} PlaceNone(before: seq<Placed>, height: nat)
    ensures before + Place([], height) == before
  {
  }

  /** The pool's coins through an order of it. */
  lemma {:induction false} OrderSets(order: seq<TxRows>, txs: map<Txid, TxRows>, c: Coin)
    requires Orders(order, txs)
    ensures SpendsIn(order, c.op) <==> c.op in PoolSpent(txs)
    ensures FundsIn(order, c) <==> c.op.txid in txs && c in FundedCoins(txs[c.op.txid])
  {
    if SpendsIn(order, c.op) {
      var t :| t in order && c.op in SpentOuts(t);
      assert t.txid in txs && txs[t.txid] == t;
    }
    if c.op in PoolSpent(txs) {
      var id, s :| id in txs && s in txs[id].spent && s.prevout == c.op;
      assert txs[id] in order && c.op in SpentOuts(txs[id]);
    }
    if FundsIn(order, c) {
      var t :| t in order && c in FundedCoins(t);
      assert t.txid in txs && txs[t.txid] == t;
    }
    if c.op.txid in txs && c in FundedCoins(txs[c.op.txid]) {
      assert txs[c.op.txid] in order;
    }
  }

  /** The coins of `p` once the pool is applied as one more block. */
  ghost function NextUtxo(chain: seq<Block>, order: seq<TxRows>, height: nat): map<Coin, UtxoVal> {
    ApplyTxs(Replay(chain), order, TxCount(chain), height).utxo
  }

  lemma {:induction false} NextUtxoIsFlat(chain: seq<Block>, order: seq<TxRows>, height: nat)
    ensures NextUtxo(chain, order, height) == Utxo(Flat(chain) + Place(order, height))
  {
    hide ApplyTxs, ApplyBlocks, Utxo, Flat, Place, Histories;
    ReplayFlat(chain);
    ApplyTxsFlat(Replay(chain), Flat(chain), order, height);
  }

  /** A coin is unspent after the pool confirms iff it is confirmed and unspent
      by the pool, or created by the pool and unspent by it. */
  lemma {:induction false} NextCoin(chain: seq<Block>, order: seq<TxRows>, txs: map<Txid, TxRows>, height: nat, c: Coin)
    requires ValidTxs(Flat(chain) + Place(order, height)) && Orders(order, txs)
    ensures c in NextUtxo(chain, order, height) <==>
            c.op !in PoolSpent(txs) &&
            (c in Replay(chain).utxo || (c.op.txid in txs && c in FundedCoins(txs[c.op.txid])))
    ensures c.op.txid in txs && c in FundedCoins(txs[c.op.txid]) ==> c !in Replay(chain).utxo
  {
    hide ValidTxs, Utxo, Flat, Place, FundedCoins, PoolSpent, NextUtxo, Orders;
    var flat, all := Flat(chain), Flat(chain) + Place(order, height);
    NextUtxoIsFlat(chain, order, height);
    UtxoIsFundedMinusSpent(all);
    ValidPrefix(all, |flat|);
    assert all[..|flat|] == flat;
    UtxoIsFundedMinusSpent(flat);
    ReplayFlat(chain);
    PlacedSets(flat, order, height, c);
    OrderSets(order, txs, c);
    if FundsIn(order, c) {
      PoolIsNew(flat, order, height, c);
    }
  }

  /** What the pool creates, the chain neither created nor spent. */
  lemma {:induction false} PoolIsNew(flat: seq<Placed>, order: seq<TxRows>, height: nat, c: Coin)
    requires ValidTxs(flat + Place(order, height)) && FundsIn(order, c)
    ensures c !in AllFunded(flat) && c.op !in AllSpent(flat)
    decreases |order|
  {
    hide Place, DistinctVouts, DistinctSpends, CarriesProgram;
    PlaceLast(flat, order, height);
    var mid := flat + Place(Init(order), height);
    assert Init(flat + Place(order, height)) == mid && Last(flat + Place(order, height)).tx == Last(order);
    var t :| t in order && c in FundedCoins(t);
    if t == Last(order) {
      SetsGrow(flat, Place(Init(order), height));
      AllFundedOps(flat);
      assert c.op in FundedOuts(t);
    } else {
      assert order == Init(order) + [Last(order)];
      assert t in Init(order);
      PoolIsNew(flat, Init(order), height, c);
    }
  }

  /** The confirmed rows of `p`. */
  ghost predicate ConfirmedOf(confirmed: seq<(OutPoint, UtxoVal)>, utxo: map<Coin, UtxoVal>, p: Program) {
    forall o, v :: (o, v) in confirmed <==> Coin(p, o) in utxo && utxo[Coin(p, o)] == v
  }

  lemma {:induction false} ConfirmedKeepsValue(chain: seq<Block>, order: seq<TxRows>, height: nat, c: Coin)
    requires ValidTxs(Flat(chain) + Place(order, height))
    requires c in Replay(chain).utxo && c in NextUtxo(chain, order, height)
    ensures NextUtxo(chain, order, height)[c] == Replay(chain).utxo[c]
  {
    hide ValidTxs, ApplyTxs, ApplyBlocks, Place;
    NextBlockFresh(Flat(chain), order, height);
    ReplayFlat(chain);
    UtxoWasFunded(Flat(chain));
    AllFundedOps(Flat(chain));
    assert FreshFunding(Replay(chain).utxo, order);
    ApplyTxsKeepsCoins(Replay(chain), order, TxCount(chain), height);
  }

  lemma {:induction false} PoolValue(chain: seq<Block>, order: seq<TxRows>, height: nat, k: nat, j: nat)
    requires ValidTxs(Flat(chain) + Place(order, height))
    requires k < |order| && j < |order[k].funded|
    ensures var c := CoinOf(order[k].txid, order[k].funded[j]);
            c in NextUtxo(chain, order, height) ==> NextUtxo(chain, order, height)[c].value == order[k].funded[j].value
  {
    hide ValidTxs, Utxo, NextUtxo, Flat;
    var all := Flat(chain) + Place(order, height);
    NextUtxoIsFlat(chain, order, height);
    assert all[|Flat(chain)| + k] == Placed(order[k], height);
    UtxoValues(all, |Flat(chain)| + k, j);
  }

  lemma {:induction false} PendingIsNext(chain: seq<Block>, order: seq<TxRows>, txs: map<Txid, TxRows>, height: nat,
                                         p: Program, o: OutPoint, x: nat)
    requires ValidTxs(Flat(chain) + Place(order, height)) && Orders(order, txs) && WellFormed(txs)
    ensures (o, x) in PendingCoins(txs, p) <==>
            Coin(p, o) in NextUtxo(chain, order, height) && NextUtxo(chain, order, height)[Coin(p, o)].value == x &&
            Coin(p, o) !in Replay(chain).utxo
  {
    hide ValidTxs, NextUtxo, Flat, Place, ApplyBlocks;
    var c := Coin(p, o);
    NextCoin(chain, order, txs, height, c);
    if o.txid in txs && c in FundedCoins(txs[o.txid]) {
      var tx := txs[o.txid];
      var f :| f in tx.funded && CoinOf(tx.txid, f) == c;
      var k :| 0 <= k < |order| && order[k] == tx;
      var j :| 0 <= j < |tx.funded| && tx.funded[j] == f;
      PoolValue(chain, order, height, k, j);
      if (o, x) in PendingCoins(txs, p) {
        var id, g :| id in txs && g in txs[id].funded && g.program == p && OutPoint(id, g.vout) !in PoolSpent(txs) &&
                     (OutPoint(id, g.vout), g.value) == (o, x);
        assert g.vout == f.vout;
        assert g == f;
      }
    }
  }

  /** The listing is the real future state: for a pool that is valid on top of
      the chain, in whatever topological order, the rows for `p` are exactly its
      coins after applying every pool transaction as one more block. */
  lemma {:induction false} ListingIsNextBlock(chain: seq<Block>, order: seq<TxRows>, txs: map<Txid, TxRows>,
                                              height: nat, p: Program,
                                              confirmed: seq<(OutPoint, UtxoVal)>, rows: seq<Row>, o: OutPoint, x: nat)
    requires ValidTxs(Flat(chain) + Place(order, height)) && Orders(order, txs) && WellFormed(txs)
    requires ConfirmedOf(confirmed, Replay(chain).utxo, p) && Lists(rows, confirmed, txs, p)
    ensures (exists h :: Row(o, x, h) in rows) <==>
            Coin(p, o) in NextUtxo(chain, order, height) && NextUtxo(chain, order, height)[Coin(p, o)].value == x
  {
    hide ValidTxs, NextUtxo, Flat, Place, ApplyBlocks, PendingCoins, Orders, WellFormed, FundedCoins;
    var c := Coin(p, o);
    var utxo := Replay(chain).utxo;
    NextCoin(chain, order, txs, height, c);
    PendingIsNext(chain, order, txs, height, p, o, x);
    if c in utxo {
      assert (o, utxo[c]) in confirmed;
      if c in NextUtxo(chain, order, height) {
        ConfirmedKeepsValue(chain, order, height, c);
        assert Row(o, utxo[c].value, Some(utxo[c].height)) in rows;
      }
    }
    forall h | Row(o, x, h) in rows
      ensures c in NextUtxo(chain, order, height) && NextUtxo(chain, order, height)[c].value == x
    {
      if h.Some? {
        var v := UtxoVal(x, h.value);
        assert Row(o, v.value, Some(v.height)) in rows;
        assert (o, v) in confirmed;
      }
    }
    if c in NextUtxo(chain, order, height) && c !in utxo && NextUtxo(chain, order, height)[c].value == x {
      assert forall d :: d in confirmed ==> d.0 != o by {
        forall d | d in confirmed ensures d.0 != o {
          assert (d.0, d.1) in confirmed;
        }
      }
      assert Row(o, x, None) in rows;
    }
  }
}
