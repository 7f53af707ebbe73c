/** `POST /scan`: capped coin listings and the plan over many addresses. */
module Scan {
  import opened Types
  import opened Newest
  import Mempool

  type CoinRow = (OutPoint, UtxoVal)

  datatype Unlisted = Unlisted(count: nat, value: nat)

  // --------------------------------------------------------- the largest coins

  /** Rows compare by value and then by outpoint, so no two are level. */
  predicate Lower(a: CoinRow, b: CoinRow) {
    || a.1.value < b.1.value
    || (a.1.value == b.1.value && (a.0.txid < b.0.txid || (a.0.txid == b.0.txid && a.0.vout < b.0.vout)))
  }

  ghost predicate Distinct(rows: seq<CoinRow>) {
    forall i, j :: 0 <= i < j < |rows| ==> rows[i].0 != rows[j].0
  }

  ghost function Accepted(rows: seq<CoinRow>, keep: OutPoint -> bool): seq<CoinRow> {
    if rows == [] then []
    else if keep(Last(rows).0) then Accepted(Init(rows), keep) + [Last(rows)]
    else Accepted(Init(rows), keep)
  }

  ghost function Sum(rows: seq<CoinRow>): nat {
    if rows == [] then 0 else Sum(Init(rows)) + Last(rows).1.value
  }

  lemma {:induction false} SumSnoc(a: seq<CoinRow>, c: CoinRow)
    ensures Sum(a + [c]) == Sum(a) + c.1.value
  {
    assert Init(a + [c]) == a;
  }

  lemma {:induction false} SumWithout(a: seq<CoinRow>, i: nat)
    requires i < |a|
    ensures Sum(a) == Sum(a[..i] + a[i + 1..]) + a[i].1.value
    decreases |a|
  {
    hide Sum;
    if i == |a| - 1 {
      assert a[..i] + a[i + 1..] == Init(a) && a == Init(a) + [a[i]];
      SumSnoc(Init(a), a[i]);
    } else {
      var b := Init(a);
      SumWithout(b, i);
      assert a == b + [Last(a)];
      assert a[..i] + a[i + 1..] == (b[..i] + b[i + 1..]) + [Last(a)];
      SumSnoc(b, Last(a));
      SumSnoc(b[..i] + b[i + 1..], Last(a));
    }
  }

  lemma {:induction false} AcceptedSnoc(rows: seq<CoinRow>, i: nat, keep: OutPoint -> bool)
    requires i < |rows|
    ensures Accepted(rows[..i + 1], keep) == Accepted(rows[..i], keep) + (if keep(rows[i].0) then [rows[i]] else [])
  {
    assert Init(rows[..i + 1]) == rows[..i];
  }

  lemma {:induction false} AcceptedNone(keep: OutPoint -> bool)
    ensures Accepted([], keep) == []
  {
  }

  lemma {:induction false} AcceptedAre(rows: seq<CoinRow>, keep: OutPoint -> bool)
    ensures forall c :: c in Accepted(rows, keep) <==> c in rows && keep(c.0)
    ensures Distinct(rows) ==> Distinct(Accepted(rows, keep))
  {
    if rows != [] {
      AcceptedAre(Init(rows), keep);
      assert rows == Init(rows) + [Last(rows)];
    }
  }

  lemma {:induction false} LowerTransitive(a: CoinRow, b: CoinRow, c: CoinRow)
    requires Lower(a, b) && Lower(b, c)
    ensures Lower(a, c)
  {
  }

  /** The accepted rows above `c`. */
  ghost function Higher(rows: seq<CoinRow>, keep: OutPoint -> bool, c: CoinRow): set<CoinRow> {
    set d | d in rows && keep(d.0) && Lower(c, d)
  }

  /** With the largest rows listed, up to the cap, listing is a matter of rank. */
  lemma {:induction false} ListedByRank(rows: seq<CoinRow>, keep: OutPoint -> bool, listed: seq<CoinRow>, maxRows: nat,
                                        c: CoinRow)
    requires Distinct(rows) && Distinct(listed) && c in rows && keep(c.0)
    requires forall d :: d in listed ==> d in rows && keep(d.0)
    requires forall d, e :: d in rows && keep(d.0) && d !in listed && e in listed ==> Lower(d, e)
    requires |listed| == if |Accepted(rows, keep)| < maxRows then |Accepted(rows, keep)| else maxRows
    ensures c in listed <==> |Higher(rows, keep, c)| < maxRows
  {
    hide Accepted;
    var higher := Higher(rows, keep, c);
    RowSet(listed);
    if c in listed {
      assert higher <= ToSet(listed) - {c};
      SubsetSize(higher, ToSet(listed) - {c});
    } else {
      assert ToSet(listed) <= higher;
      SubsetSize(ToSet(listed), higher);
      AcceptedAre(rows, keep);
      RowSet(Accepted(rows, keep));
      assert ToSet(listed) <= ToSet(Accepted(rows, keep)) - {c};
      SubsetSize(ToSet(listed), ToSet(Accepted(rows, keep)) - {c});
    }
  }

  lemma {:induction false} RowSet(rows: seq<CoinRow>)
    requires Distinct(rows)
    ensures |ToSet(rows)| == |rows|
  {
    if rows != [] {
      RowSet(Init(rows));
      assert rows == Init(rows) + [Last(rows)];
      assert ToSet(rows) == ToSet(Init(rows)) + {Last(rows)};
    }
  }

  /** Take the smallest row off the heap. */
  method PopMin(heap: seq<CoinRow>) returns (m: CoinRow, rest: seq<CoinRow>)
    requires heap != [] && Distinct(heap)
    ensures m in heap && Distinct(rest) && |rest| == |heap| - 1
    ensures forall c :: c in rest <==> c in heap && c != m
    ensures forall c :: c in rest ==> Lower(m, c)
    ensures Sum(heap) == Sum(rest) + m.1.value
  {
    hide Sum;
    var k := 0;
    for i := 1 to |heap|
      invariant 0 <= k < i
      invariant forall j :: 0 <= j < i && j != k ==> Lower(heap[k], heap[j])
    {
      if Lower(heap[i], heap[k]) {
        k := i;
      } else {
        assert heap[k].0 != heap[i].0;
      }
    }
    m := heap[k];
    rest := heap[..k] + heap[k + 1..];
    SumWithout(heap, k);
    PickedApart(heap, k);
  }

  lemma {:induction false} PickedApart(heap: seq<CoinRow>, k: nat)
    requires k < |heap| && Distinct(heap)
    requires forall j :: 0 <= j < |heap| && j != k ==> Lower(heap[k], heap[j])
    ensures var rest := heap[..k] + heap[k + 1..];
            && Distinct(rest)
            && (forall c :: c in rest <==> c in heap && c != heap[k])
            && (forall c :: c in rest ==> Lower(heap[k], c))
  {
    var rest := heap[..k] + heap[k + 1..];
    assert forall j :: 0 <= j < |rest| ==> rest[j] == heap[if j < k then j else j + 1];
    forall c | c in heap && c != heap[k]
      ensures c in rest
    {
      var j :| 0 <= j < |heap| && heap[j] == c;
      assert rest[if j < k then j else j - 1] == c;
    }
  }

  /** What the heap and the counters hold after the rows `seen`. */
  ghost predicate Holds(heap: seq<CoinRow>, rest: Unlisted, seen: seq<CoinRow>, maxRows: nat) {
    && Distinct(heap)
    && (forall c :: c in heap ==> c in seen)
    && (forall d, c :: d in seen && d !in heap && c in heap ==> Lower(d, c))
    && (rest.count == 0 ==> forall d :: d in seen ==> d in heap)
    && (rest.count > 0 ==> |heap| == maxRows)
    && |heap| <= maxRows
    && |heap| + rest.count == |seen|
    && Sum(heap) + rest.value == Sum(seen)
  }

  method Push(heap: seq<CoinRow>, rest: Unlisted, c: CoinRow, maxRows: nat, ghost seen: seq<CoinRow>)
    returns (heap': seq<CoinRow>, rest': Unlisted)
    requires Holds(heap, rest, seen, maxRows) && (forall d :: d in seen ==> d.0 != c.0)
    ensures Holds(heap', rest', seen + [c], maxRows)
  {
    hide Sum;
    SumSnoc(heap, c);
    SumSnoc(seen, c);
    var full := heap + [c];
    assert Distinct(full);
    if |full| <= maxRows {
      return full, rest;
    }
    var m, left := PopMin(full);
    forall d, x | d in seen + [c] && d !in left && x in left
      ensures Lower(d, x)
    {
      if d in full {
        assert d == m;
      } else if x == c {
        assert m in heap;
        LowerTransitive(d, m, c);
      }
    }
    heap', rest' := left, Unlisted(rest.count + 1, rest.value + m.1.value);
  }

  /** `utxos_largest`: an accepted row is listed iff fewer than `maxRows` are
      above it, and listed plus unlisted conserve both count and value. */
  method UtxosLargest(rows: seq<CoinRow>, maxRows: nat, keep: OutPoint -> bool)
    returns (listed: seq<CoinRow>, rest: Unlisted)
    requires Distinct(rows)
    ensures Distinct(listed)
    ensures forall c :: c in listed ==> c in rows && keep(c.0)
    ensures forall d, c :: d in rows && keep(d.0) && d !in listed && c in listed ==> Lower(d, c)
    ensures |listed| == if |Accepted(rows, keep)| < maxRows then |Accepted(rows, keep)| else maxRows
    ensures forall c :: c in rows && keep(c.0) ==> (c in listed <==> |Higher(rows, keep, c)| < maxRows)
    ensures |listed| + rest.count == |Accepted(rows, keep)|
    ensures Sum(listed) + rest.value == Sum(Accepted(rows, keep))
  {
    hide Accepted;
    listed, rest := [], Unlisted(0, 0);
    assert rows[..0] == [];
    AcceptedNone(keep);
    for i := 0 to |rows|
      invariant Holds(listed, rest, Accepted(rows[..i], keep), maxRows)
    {
      AcceptedSnoc(rows, i, keep);
      assert Accepted(rows[..i], keep) + [] == Accepted(rows[..i], keep);
      if keep(rows[i].0) {
        AcceptedAre(rows[..i], keep);
        listed, rest := Push(listed, rest, rows[i], maxRows, Accepted(rows[..i], keep));
      }
    }
    assert rows[..|rows|] == rows;
    AcceptedAre(rows, keep);
    forall c | c in rows && keep(c.0)
      ensures c in listed <==> |Higher(rows, keep, c)| < maxRows
    {
      ListedByRank(rows, keep, listed, maxRows, c);
    }
  }

  // ------------------------------------------------- coins past the cap, merged

  ghost function OpsOf(rows: seq<CoinRow>): set<OutPoint> {
    set c | c in rows :: c.0
  }

  ghost function PendingOps(txs: map<Txid, TxRows>, p: Program): set<OutPoint> {
    set c | c in Mempool.PendingCoins(txs, p) :: c.0
  }

  lemma {:induction false} OpsCount(rows: seq<CoinRow>)
    requires Distinct(rows)
    ensures |OpsOf(rows)| == |rows|
  {
    if rows != [] {
      OpsCount(Init(rows));
      assert rows == Init(rows) + [Last(rows)];
      assert OpsOf(rows) == OpsOf(Init(rows)) + {Last(rows).0};
      assert Last(rows).0 !in OpsOf(Init(rows));
    }
  }

  lemma {:induction false} RowsCount(rows: seq<Mempool.Row>)
    requires Mempool.DistinctOps(rows)
    ensures |Mempool.Ops(rows)| == |rows|
  {
    if rows != [] {
      RowsCount(Init(rows));
      assert rows == Init(rows) + [Last(rows)];
      assert Mempool.Ops(rows) == Mempool.Ops(Init(rows)) + {Last(rows).op};
      assert Last(rows).op !in Mempool.Ops(Init(rows));
    }
  }

  lemma {:induction false} RowsOps(rows: seq<Mempool.Row>, listed: seq<CoinRow>, txs: map<Txid, TxRows>, p: Program)
    requires Mempool.Lists(rows, listed, txs, p) && (forall c :: c in listed ==> c.0 !in Mempool.PoolSpent(txs))
    ensures Mempool.Ops(rows) == OpsOf(listed) + PendingOps(txs, p)
  {
    hide Mempool.PendingCoins, Mempool.PoolSpent;
    forall r | r in rows
      ensures r.op in OpsOf(listed) + PendingOps(txs, p)
    {
      if r.height.Some? {
        var v := UtxoVal(r.value, r.height.value);
        assert Mempool.Row(r.op, v.value, Some(v.height)) in rows;
        assert (r.op, v) in listed;
      } else {
        assert Mempool.Row(r.op, r.value, None) in rows;
        assert (r.op, r.value) in Mempool.PendingCoins(txs, p);
      }
    }
    forall c | c in listed
      ensures c.0 in Mempool.Ops(rows)
    {
      assert (c.0, c.1) in listed;
      assert Mempool.Row(c.0, c.1.value, Some(c.1.height)) in rows;
    }
    forall c | c in Mempool.PendingCoins(txs, p)
      ensures c.0 in Mempool.Ops(rows)
    {
      if forall d :: d in listed ==> d.0 != c.0 {
        assert (c.0, c.1) in Mempool.PendingCoins(txs, p);
        assert Mempool.Row(c.0, c.1, None) in rows;
      }
    }
  }

  lemma {:induction false} Overlap<T>(listed: set<T>, accepted: set<T>, pending: set<T>)
    requires listed <= accepted
    ensures |listed + pending| + (|accepted| - |listed|) == |accepted + pending| + |pending * (accepted - listed)|
  {
    var cut := accepted - listed;
    assert accepted == listed + cut;
    assert accepted + pending == (listed + pending) + (cut - pending);
    assert cut == (cut - pending) + (pending * cut);
  }

  lemma {:induction false} AcceptedOps(coins: seq<CoinRow>, keep: OutPoint -> bool, spent: set<OutPoint>)
    requires forall o :: keep(o) <==> o !in spent
    ensures OpsOf(Accepted(coins, keep)) == OpsOf(coins) - spent
  {
    hide Accepted;
    AcceptedAre(coins, keep);
    var accepted := Accepted(coins, keep);
    forall o | o in OpsOf(coins) - spent
      ensures o in OpsOf(accepted)
    {
      var c :| c in coins && c.0 == o;
      assert c in accepted;
    }
  }

  // ------------------------------------------------------ sums over coins

  ghost function PairSum(s: set<(OutPoint, nat)>): nat {
    if s == {} then 0 else var x :| x in s; x.1 + PairSum(s - {x})
  }

  lemma {:induction false} PairSumTake(s: set<(OutPoint, nat)>, x: (OutPoint, nat))
    requires x in s
    ensures PairSum(s) == x.1 + PairSum(s - {x})
    decreases s
  {
    var y :| y in s && PairSum(s) == y.1 + PairSum(s - {y});
    if y != x {
      PairSumTake(s - {y}, x);
      PairSumTake(s - {x}, y);
      assert s - {y} - {x} == s - {x} - {y};
    }
  }

  lemma {:induction false} PairSumUnion(a: set<(OutPoint, nat)>, b: set<(OutPoint, nat)>)
    requires a !! b
    ensures PairSum(a + b) == PairSum(a) + PairSum(b)
    decreases a
  {
    if a == {} {
      assert a + b == b;
    } else {
      var x :| x in a;
      PairSumTake(a, x);
      PairSumTake(a + b, x);
      assert a + b - {x} == (a - {x}) + b;
      PairSumUnion(a - {x}, b);
    }
  }

  ghost function CoinPairs(rows: seq<CoinRow>): set<(OutPoint, nat)> {
    set c | c in rows :: (c.0, c.1.value)
  }

  ghost function RowPairs(rows: seq<Mempool.Row>): set<(OutPoint, nat)> {
    set r | r in rows :: (r.op, r.value)
  }

  ghost function RowSum(rows: seq<Mempool.Row>): nat {
    if rows == [] then 0 else RowSum(Init(rows)) + Last(rows).value
  }

  lemma {:induction false} SumIsPairs(rows: seq<CoinRow>)
    requires Distinct(rows)
    ensures Sum(rows) == PairSum(CoinPairs(rows))
  {
    hide PairSum;
    if rows == [] {
      assert CoinPairs(rows) == {};
      NoPairs();
    } else {
      var c := (Last(rows).0, Last(rows).1.value);
      SumIsPairs(Init(rows));
      assert rows == Init(rows) + [Last(rows)];
      assert CoinPairs(rows) == CoinPairs(Init(rows)) + {c} && c !in CoinPairs(Init(rows));
      PairSumTake(CoinPairs(rows), c);
      assert CoinPairs(rows) - {c} == CoinPairs(Init(rows));
    }
  }

  lemma {:induction false} NoPairs()
    ensures PairSum({}) == 0
  {
  }

  lemma {:induction false} RowSumIsPairs(rows: seq<Mempool.Row>)
    requires Mempool.DistinctOps(rows)
    ensures RowSum(rows) == PairSum(RowPairs(rows))
  {
    hide PairSum;
    if rows == [] {
      assert RowPairs(rows) == {};
      NoPairs();
    } else {
      var r := (Last(rows).op, Last(rows).value);
      RowSumIsPairs(Init(rows));
      assert rows == Init(rows) + [Last(rows)];
      assert RowPairs(rows) == RowPairs(Init(rows)) + {r} && r !in RowPairs(Init(rows));
      PairSumTake(RowPairs(rows), r);
      assert RowPairs(rows) - {r} == RowPairs(Init(rows));
    }
  }

  // ---------------------------------------------------- what the cap cuts off

  /** What a set of spent outpoints leaves. */
  function Unspent(spent: set<OutPoint>): OutPoint -> bool {
    o => o !in spent
  }

  /** The confirmed coins the mempool leaves unspent. */
  ghost function Live(coins: seq<CoinRow>, txs: map<Txid, TxRows>): set<OutPoint> {
    OpsOf(coins) - Mempool.PoolSpent(txs)
  }

  /** Of those, the ones below the `maxRows` largest. */
  ghost function CutOff(coins: seq<CoinRow>, txs: map<Txid, TxRows>, maxRows: nat): set<OutPoint> {
    set c | c in coins && c.0 !in Mempool.PoolSpent(txs) &&
            |Higher(coins, Unspent(Mempool.PoolSpent(txs)), c)| >= maxRows :: c.0
  }

  /** The pending coins of `p` among `ops`. */
  ghost function PendingIn(txs: map<Txid, TxRows>, p: Program, ops: set<OutPoint>): set<(OutPoint, nat)> {
    set x | x in Mempool.PendingCoins(txs, p) && x.0 in ops
  }

  /** The pending coins of `p` that are not among `ops`. */
  ghost function PendingOutside(txs: map<Txid, TxRows>, p: Program, ops: set<OutPoint>): set<(OutPoint, nat)> {
    set x | x in Mempool.PendingCoins(txs, p) && x.0 !in ops
  }

  /** A row of a kept coin has its value and height; any other row is a pending
      coin of `p`, with its value and no height. */
  ghost predicate TrueRows(rows: seq<Mempool.Row>, coins: seq<CoinRow>, txs: map<Txid, TxRows>, p: Program,
                           kept: set<OutPoint>) {
    forall r :: r in rows ==>
                  if r.op in kept then r.height.Some? && (r.op, UtxoVal(r.value, r.height.value)) in coins
                  else r.height.None? && (r.op, r.value) in Mempool.PendingCoins(txs, p)
  }

  /** What a capped listing of `p` amounts to: each live or pending coin once in
      count and in value, and once more each pending coin the cap cut off. */
  ghost predicate CappedListing(rows: seq<Mempool.Row>, rest: Unlisted, coins: seq<CoinRow>, txs: map<Txid, TxRows>,
                                p: Program, maxRows: nat) {
    var live, cut := Live(coins, txs), CutOff(coins, txs, maxRows);
    && Mempool.DistinctOps(rows)
    && Mempool.Ops(rows) == (live - cut) + PendingOps(txs, p)
    && TrueRows(rows, coins, txs, p, live - cut)
    && rest.count == |cut|
    && |rows| + rest.count == |live + PendingOps(txs, p)| + |PendingOps(txs, p) * cut|
    && RowSum(rows) + rest.value ==
       Sum(Accepted(coins, Unspent(Mempool.PoolSpent(txs)))) + PairSum(PendingOutside(txs, p, live)) +
       PairSum(PendingIn(txs, p, cut))
  }

  /** The bookkeeping of a capped listing, over sets of outpoints. */
  lemma {:induction false} CappedCount(kept: set<OutPoint>, accepted: set<OutPoint>, pending: set<OutPoint>, nRows: nat,
                                       count: nat)
    requires kept <= accepted && nRows == |kept + pending| && |kept| + count == |accepted|
    ensures |accepted - kept| == count
    ensures accepted - (accepted - kept) == kept
    ensures nRows + count == |accepted + pending| + |pending * (accepted - kept)|
  {
    assert accepted == kept + (accepted - kept);
    Overlap(kept, accepted, pending);
  }

  /** The listed coins and the cut ones split the live ones. */
  lemma {:induction false} CutIsUnlisted(coins: seq<CoinRow>, txs: map<Txid, TxRows>, maxRows: nat,
                                         listed: seq<CoinRow>)
    requires Distinct(coins)
    requires forall c :: c in listed ==> c in coins && c.0 !in Mempool.PoolSpent(txs)
    requires forall c :: c in coins && c.0 !in Mempool.PoolSpent(txs) ==>
                           (c in listed <==> |Higher(coins, Unspent(Mempool.PoolSpent(txs)), c)| < maxRows)
    ensures CutOff(coins, txs, maxRows) == Live(coins, txs) - OpsOf(listed)
    ensures OpsOf(listed) <= Live(coins, txs)
  {
    hide Mempool.PoolSpent, Higher;
    var live, cut := Live(coins, txs), CutOff(coins, txs, maxRows);
    forall o | o in live
      ensures o in cut <==> o !in OpsOf(listed)
    {
      var c :| c in coins && c.0 == o;
      if d :| d in listed && d.0 == o {
        SameRow(coins, c, d);
      }
      if d :| d in coins && d.0 == o && d.0 !in Mempool.PoolSpent(txs) &&
              |Higher(coins, Unspent(Mempool.PoolSpent(txs)), d)| >= maxRows {
        SameRow(coins, c, d);
      }
    }
  }

  lemma {:induction false} SameRow(coins: seq<CoinRow>, c: CoinRow, d: CoinRow)
    requires Distinct(coins) && c in coins && d in coins && c.0 == d.0
    ensures c == d
  {
    var i :| 0 <= i < |coins| && coins[i] == c;
    var j :| 0 <= j < |coins| && coins[j] == d;
  }

  lemma {:induction false} RowsPairs(rows: seq<Mempool.Row>, listed: seq<CoinRow>, txs: map<Txid, TxRows>, p: Program)
    requires Mempool.Lists(rows, listed, txs, p) && (forall c :: c in listed ==> c.0 !in Mempool.PoolSpent(txs))
    ensures RowPairs(rows) == CoinPairs(listed) + PendingOutside(txs, p, OpsOf(listed))
    ensures CoinPairs(listed) !! PendingOutside(txs, p, OpsOf(listed))
  {
    hide Mempool.PendingCoins, Mempool.PoolSpent;
    forall r | r in rows
      ensures (r.op, r.value) in CoinPairs(listed) + PendingOutside(txs, p, OpsOf(listed))
    {
      if r.height.Some? {
        var v := UtxoVal(r.value, r.height.value);
        assert Mempool.Row(r.op, v.value, Some(v.height)) in rows;
        assert (r.op, v) in listed;
      } else {
        assert Mempool.Row(r.op, r.value, None) in rows;
      }
    }
    forall c | c in listed
      ensures (c.0, c.1.value) in RowPairs(rows)
    {
      assert (c.0, c.1) in listed;
      assert Mempool.Row(c.0, c.1.value, Some(c.1.height)) in rows;
    }
    forall x | x in PendingOutside(txs, p, OpsOf(listed))
      ensures x in RowPairs(rows)
    {
      assert forall c :: c in listed ==> c.0 != x.0;
      assert (x.0, x.1) in Mempool.PendingCoins(txs, p);
      assert Mempool.Row(x.0, x.1, None) in rows;
    }
  }

  lemma {:induction false} RowsAreTrue(rows: seq<Mempool.Row>, listed: seq<CoinRow>, coins: seq<CoinRow>,
                                       txs: map<Txid, TxRows>, p: Program)
    requires Mempool.Lists(rows, listed, txs, p) && Mempool.DistinctOps(rows)
    requires forall c :: c in listed ==> c in coins && c.0 !in Mempool.PoolSpent(txs)
    ensures TrueRows(rows, coins, txs, p, OpsOf(listed))
  {
    hide Mempool.PendingCoins, Mempool.PoolSpent;
    forall r | r in rows
      ensures if r.op in OpsOf(listed) then r.height.Some? && (r.op, UtxoVal(r.value, r.height.value)) in coins
              else r.height.None? && (r.op, r.value) in Mempool.PendingCoins(txs, p)
    {
      if r.height.Some? {
        var v := UtxoVal(r.value, r.height.value);
        assert Mempool.Row(r.op, v.value, Some(v.height)) in rows;
        assert (r.op, v) in listed;
      } else {
        assert Mempool.Row(r.op, r.value, None) in rows;
      }
    }
  }

  lemma {:induction false} PendingSplits(txs: map<Txid, TxRows>, p: Program, live: set<OutPoint>, kept: set<OutPoint>)
    requires kept <= live
    ensures PairSum(PendingOutside(txs, p, kept)) ==
            PairSum(PendingOutside(txs, p, live)) + PairSum(PendingIn(txs, p, live - kept))
  {
    hide PairSum, Mempool.PendingCoins;
    assert PendingOutside(txs, p, kept) == PendingOutside(txs, p, live) + PendingIn(txs, p, live - kept);
    PairSumUnion(PendingOutside(txs, p, live), PendingIn(txs, p, live - kept));
  }

  /** The value of the rows: the listed coins and the pending ones beside them. */
  lemma {:induction false} RowsValue(rows: seq<Mempool.Row>, listed: seq<CoinRow>, txs: map<Txid, TxRows>, p: Program,
                                     live: set<OutPoint>)
    requires Mempool.DistinctOps(rows) && Distinct(listed) && Mempool.Lists(rows, listed, txs, p)
    requires (forall c :: c in listed ==> c.0 !in Mempool.PoolSpent(txs)) && OpsOf(listed) <= live
    ensures RowSum(rows) ==
            Sum(listed) + PairSum(PendingOutside(txs, p, live)) + PairSum(PendingIn(txs, p, live - OpsOf(listed)))
  {
    hide PairSum, Sum, RowSum, PendingOutside, PendingIn, CoinPairs, RowPairs, OpsOf, Mempool.Lists, Mempool.PoolSpent;
    RowSumIsPairs(rows);
    SumIsPairs(listed);
    RowsPairs(rows, listed, txs, p);
    PairSumUnion(CoinPairs(listed), PendingOutside(txs, p, OpsOf(listed)));
    PendingSplits(txs, p, live, OpsOf(listed));
  }

  /** `utxo_rows_capped`: count and balance are those of the live and pending
      coins, each once, iff the cap cuts off no pending coin: one mined since
      the mempool snapshot and too small to be listed is counted twice. */
  method UtxoRowsCapped(coins: seq<CoinRow>, v: Mempool.View, p: Program, maxRows: nat, ghost txs: map<Txid, TxRows>)
    returns (rows: seq<Mempool.Row>, rest: Unlisted)
    requires Mempool.IsView(v, txs) && Mempool.WellFormed(txs) && Distinct(coins)
    ensures forall r :: r in rows ==> r.op !in Mempool.PoolSpent(txs)
    ensures CappedListing(rows, rest, coins, txs, p, maxRows)
    ensures |rows| + rest.count == |Live(coins, txs) + PendingOps(txs, p)| <==>
            PendingOps(txs, p) !! CutOff(coins, txs, maxRows)
  {
    hide *;
    assert v.spent == Mempool.PoolSpent(txs) by { SpentOfView(v, txs); }
    var listed, unlisted := UtxosLargest(coins, maxRows, Unspent(v.spent));
    rest := unlisted;
    UnspentIs(v.spent);
    DistinctPairs(listed);
    rows := Mempool.UtxoRows(listed, v, p, txs);
    ListingIsCapped(rows, rest, listed, coins, txs, p, maxRows);
  }

  lemma {:induction false} SpentOfView(v: Mempool.View, txs: map<Txid, TxRows>)
    requires Mempool.IsView(v, txs)
    ensures v.spent == Mempool.PoolSpent(txs)
  {
  }

  lemma {:induction false} UnspentIs(spent: set<OutPoint>)
    ensures forall o :: Unspent(spent)(o) <==> o !in spent
  {
  }

  lemma {:induction false} DistinctPairs(rows: seq<CoinRow>)
    ensures Distinct(rows) ==> forall i, j :: 0 <= i < j < |rows| ==> rows[i].0 != rows[j].0
  {
  }

  lemma {:induction false} ListingIsCapped(rows: seq<Mempool.Row>, rest: Unlisted, listed: seq<CoinRow>,
                                           coins: seq<CoinRow>, txs: map<Txid, TxRows>, p: Program, maxRows: nat)
    requires Distinct(coins) && Distinct(listed) && Mempool.DistinctOps(rows) && Mempool.Lists(rows, listed, txs, p)
    requires forall c :: c in listed ==> c in coins && c.0 !in Mempool.PoolSpent(txs)
    requires forall c :: c in coins && c.0 !in Mempool.PoolSpent(txs) ==>
                           (c in listed <==> |Higher(coins, Unspent(Mempool.PoolSpent(txs)), c)| < maxRows)
    requires |listed| + rest.count == |Accepted(coins, Unspent(Mempool.PoolSpent(txs)))|
    requires Sum(listed) + rest.value == Sum(Accepted(coins, Unspent(Mempool.PoolSpent(txs))))
    ensures CappedListing(rows, rest, coins, txs, p, maxRows)
    ensures |rows| + rest.count == |Live(coins, txs) + PendingOps(txs, p)| <==>
            PendingOps(txs, p) !! CutOff(coins, txs, maxRows)
  {
    hide Mempool.PendingCoins, Mempool.PoolSpent, Accepted, Sum, RowSum, PairSum, PendingOps, PendingOutside, PendingIn,
      Mempool.Ops, OpsOf, Mempool.Lists, CutOff, Higher, Distinct, Mempool.DistinctOps, TrueRows;
    var spent := Mempool.PoolSpent(txs);
    var keep, live := Unspent(spent), Live(coins, txs);
    CutIsUnlisted(coins, txs, maxRows, listed);
    OpsCount(listed);
    OpsCount(Accepted(coins, keep)) by { AcceptedAre(coins, keep); }
    AcceptedOps(coins, keep, spent);
    RowsCount(rows);
    RowsOps(rows, listed, txs, p);
    CappedCount(OpsOf(listed), live, PendingOps(txs, p), |rows|, rest.count);
    RowsValue(rows, listed, txs, p, live);
    RowsAreTrue(rows, listed, coins, txs, p);
    assert |PendingOps(txs, p) * CutOff(coins, txs, maxRows)| == 0 <==>
           PendingOps(txs, p) !! CutOff(coins, txs, maxRows);
  }

  /** At every cap there is such a coin: `maxRows` larger ones and a small one
      that is confirmed and still pending. */
  lemma {:induction false} CountedTwice(maxRows: nat) returns (coins: seq<CoinRow>, txs: map<Txid, TxRows>, p: Program)
    ensures Distinct(coins) && Mempool.WellFormed(txs) && |coins| == maxRows + 1
    ensures OutPoint(0, 0) in PendingOps(txs, p) * CutOff(coins, txs, maxRows)
  {
    coins := seq(maxRows + 1, i requires i >= 0 => (OutPoint(i, 0), UtxoVal(i + 1, 0)));
    p := 7;
    var tx := TxRows(0, [Funded(p, 0, 1)], []);
    txs := map[0 := tx];
    assert tx.funded[0] == Funded(p, 0, 1);
    assert Mempool.PoolSpent(txs) == {};
    assert 0 in txs && Funded(p, 0, 1) in txs[0].funded && OutPoint(0, Funded(p, 0, 1).vout) !in Mempool.PoolSpent(txs);
    assert (OutPoint(0, 0), 1) in Mempool.PendingCoins(txs, p);
    var c := coins[0];
    var bigger := coins[1..];
    assert forall i :: 0 <= i < |bigger| ==> bigger[i] == coins[i + 1];
    RowSet(bigger);
    var higher := Higher(coins, Unspent(Mempool.PoolSpent(txs)), c);
    assert ToSet(bigger) <= higher by {
      forall d | d in bigger
        ensures d in higher
      {
        var i :| 0 <= i < |bigger| && bigger[i] == d;
        assert coins[i + 1] == d;
      }
    }
    SubsetSize(ToSet(bigger), higher);
    assert c in coins && c.0 == OutPoint(0, 0);
  }

  // ------------------------------------------------------------- the scan plan

  const PENDING_MAX: nat := 100

  const MAX_ROWS: nat := 10_000

  datatype Plan = Plan(
    used: seq<string>,
    utxos: seq<(string, Mempool.Row)>,
    unlisted: seq<(string, Unlisted)>,
    pending: seq<Txid>,
    confirmed: seq<TxNum>)

  /** One address's capped listing. */
  datatype Listing = Listing(rows: seq<Mempool.Row>, rest: Unlisted)

  function Named(addr: string, rows: seq<Mempool.Row>): seq<(string, Mempool.Row)> {
    seq(|rows|, i requires 0 <= i < |rows| => (addr, rows[i]))
  }

  /** The rows of all listings, each under its address. */
  ghost function Rowed(targets: seq<(string, Program)>, parts: seq<Listing>): seq<(string, Mempool.Row)>
    requires |targets| == |parts|
  {
    if targets == [] then [] else Rowed(Init(targets), Init(parts)) + Named(Last(targets).0, Last(parts).rows)
  }

  /** The addresses whose listing left something out, with what it left out. */
  ghost function Dusted(targets: seq<(string, Program)>, parts: seq<Listing>): seq<(string, Unlisted)>
    requires |targets| == |parts|
  {
    if targets == [] then []
    else Dusted(Init(targets), Init(parts)) +
         (if Last(parts).rest.count > 0 then [(Last(targets).0, Last(parts).rest)] else [])
  }

  /** `parts` are the capped listings of the targets. */
  ghost predicate Listings(targets: seq<(string, Program)>, parts: seq<Listing>, coins: Program -> seq<CoinRow>,
                           txs: map<Txid, TxRows>) {
    |parts| == |targets| && forall i :: 0 <= i < |targets| ==>
                                          CappedListing(parts[i].rows, parts[i].rest, coins(targets[i].1), txs,
                                                        targets[i].1, 10_000)
  }

  /** One more address's coins. */
  method AddCoins(targets: seq<(string, Program)>, i: nat, coins: Program -> seq<CoinRow>, v: Mempool.View,
                  utxos: seq<(string, Mempool.Row)>, unlisted: seq<(string, Unlisted)>,
                  ghost txs: map<Txid, TxRows>, ghost parts: seq<Listing>)
    returns (utxos': seq<(string, Mempool.Row)>, unlisted': seq<(string, Unlisted)>, ghost parts': seq<Listing>)
    requires Mempool.IsView(v, txs) && Mempool.WellFormed(txs) && i < |targets| && Distinct(coins(targets[i].1))
    requires Listings(targets[..i], parts, coins, txs) && utxos == Rowed(targets[..i], parts)
    requires unlisted == Dusted(targets[..i], parts)
    ensures Listings(targets[..i + 1], parts', coins, txs) && utxos' == Rowed(targets[..i + 1], parts')
    ensures unlisted' == Dusted(targets[..i + 1], parts')
  {
    hide CappedListing, Mempool.IsView, Mempool.WellFormed, Distinct, Mempool.PoolSpent, Live, CutOff, PendingOps,
      Named;
    var t := targets[i];
    var rows, rest := UtxoRowsCapped(coins(t.1), v, t.1, MAX_ROWS, txs);
    utxos' := utxos + Named(t.0, rows);
    unlisted' := if rest.count > 0 then unlisted + [(t.0, rest)] else unlisted;
    parts' := parts + [Listing(rows, rest)];
    assert Init(targets[..i + 1]) == targets[..i] && Init(parts') == parts;
    assert unlisted + [] == unlisted;
  }

  /** First occurrences, in order. */
  ghost function Once<T>(s: seq<T>): seq<T> {
    if s == [] then []
    else if Last(s) in Init(s) then Once(Init(s))
    else Once(Init(s)) + [Last(s)]
  }

  ghost predicate NoRepeat<T>(s: seq<T>) {
    forall i, j :: 0 <= i < j < |s| ==> s[i] != s[j]
  }

  lemma {:induction false} OnceMeans<T>(s: seq<T>)
    ensures NoRepeat(Once(s)) && forall x :: x in Once(s) <==> x in s
  {
    if s != [] {
      OnceMeans(Init(s));
      assert s == Init(s) + [Last(s)];
    }
  }

  lemma {:induction false} OnceNone()
    ensures Once<nat>([]) == []
  {
  }

  lemma {:induction false} OnceSnoc<T>(s: seq<T>, x: T)
    ensures Once(s + [x]) == Once(s) + (if x in s then [] else [x])
  {
    assert Init(s + [x]) == s;
  }

  /** `for x in more { if seen.insert(x) { list.push(x) } }`. */
  method Gather(list: seq<nat>, more: seq<nat>, ghost all: seq<nat>) returns (list': seq<nat>)
    requires list == Once(all)
    ensures list' == Once(all + more)
  {
    hide Once;
    list' := list;
    assert all + more[..0] == all;
    for i := 0 to |more|
      invariant list' == Once(all + more[..i])
    {
      assert all + more[..i + 1] == (all + more[..i]) + [more[i]];
      OnceSnoc(all + more[..i], more[i]);
      OnceMeans(all + more[..i]);
      if more[i] !in list' {
        list' := list' + [more[i]];
      }
    }
    assert more[..|more|] == more;
  }

  /** `without_pending`: confirmed txnums whose txid is not pending. */
  method WithoutPending(rows: seq<TxNum>, txids: map<TxNum, Txid>, pending: set<Txid>) returns (out: seq<TxNum>)
    requires NoRepeat(rows)
    ensures NoRepeat(out)
    ensures ToSet(out) == ToSet(rows) - PendingNums(txids, pending)
  {
    out := [];
    for i := 0 to |rows|
      invariant NoRepeat(out)
      invariant forall n :: n in out <==> n in rows[..i] && n !in PendingNums(txids, pending)
    {
      var n := rows[i];
      assert rows[..i + 1] == rows[..i] + [n];
      assert n !in rows[..i];
      if !(n in txids && txids[n] in pending) {
        out := out + [n];
      }
    }
    assert rows[..|rows|] == rows;
  }

  ghost function PendingNums(txids: map<TxNum, Txid>, pending: set<Txid>): set<TxNum> {
    set n | n in txids && txids[n] in pending
  }

  lemma {:induction false} InsertDescends(s: seq<TxNum>, i: nat, n: TxNum)
    requires Descending(s) && i <= |s|
    requires forall j :: 0 <= j < i ==> s[j] > n
    requires i < |s| ==> s[i] < n
    ensures Descending(s[..i] + [n] + s[i..])
  {
    var r := s[..i] + [n] + s[i..];
    forall a, b | 0 <= a < b < |r|
      ensures r[a] > r[b]
    {
      if b > i && a <= i {
        assert r[b] == s[b - 1] && s[i] >= s[b - 1];
      }
    }
  }

  lemma {:induction false} InsertSet(s: seq<TxNum>, i: nat, n: TxNum)
    requires i <= |s|
    ensures ToSet(s[..i] + [n] + s[i..]) == ToSet(s) + {n}
  {
    assert s == s[..i] + s[i..];
  }

  method Insert(sorted: seq<TxNum>, n: TxNum) returns (r: seq<TxNum>)
    requires Descending(sorted) && n !in sorted
    ensures Descending(r) && ToSet(r) == ToSet(sorted) + {n}
  {
    hide Descending, ToSet;
    var i := 0;
    while i < |sorted| && sorted[i] > n
      invariant 0 <= i <= |sorted| && forall j :: 0 <= j < i ==> sorted[j] > n
    {
      i := i + 1;
    }
    r := sorted[..i] + [n] + sorted[i..];
    InsertDescends(sorted, i, n);
    InsertSet(sorted, i, n);
  }

  /** Newest first, cut to `k`. */
  method SortAndCut(ns: seq<TxNum>, k: nat) returns (r: seq<TxNum>)
    requires NoRepeat(ns)
    ensures r == Newest.Newest(ToSet(ns), k)
  {
    r := [];
    for i := 0 to |ns|
      invariant Descending(r) && ToSet(r) == ToSet(ns[..i])
    {
      assert ns[..i + 1] == ns[..i] + [ns[i]];
      assert ns[i] !in ns[..i];
      assert ns[i] !in ToSet(r);
      r := Insert(r, ns[i]);
    }
    assert ns[..|ns|] == ns;
    DescendingPrefix(r, k);
    if |r| >= k {
      r := r[..k];
    }
  }

  ghost function Histories(keys: seq<Touch>, targets: seq<(string, Program)>): seq<set<nat>> {
    seq(|targets|, i requires 0 <= i < |targets| => TxnumsOf(keys, targets[i].1))
  }

  ghost function Mem(targets: seq<(string, Program)>, mem: Program -> seq<Txid>): seq<Txid> {
    if targets == [] then [] else Mem(Init(targets), mem) + mem(Last(targets).1)
  }

  /** All the capped history rows, in the order they are met. */
  ghost function Rows(keys: seq<Touch>, targets: seq<(string, Program)>, k: nat): seq<TxNum> {
    if targets == [] then [] else Rows(keys, Init(targets), k) + Newest.Newest(TxnumsOf(keys, Last(targets).1), k)
  }

  lemma {:induction false} RowsAreCapped(keys: seq<Touch>, targets: seq<(string, Program)>, k: nat)
    ensures ToSet(Rows(keys, targets, k)) == Capped(Histories(keys, targets), k)
  {
    hide Newest.Newest, TxnumsOf;
    if targets != [] {
      var pre := Init(targets);
      var hs, all := Histories(keys, pre), Histories(keys, targets);
      RowsAreCapped(keys, pre, k);
      assert all == hs + [TxnumsOf(keys, Last(targets).1)];
      assert Capped(all, k) == Capped(hs, k) + ToSet(Newest.Newest(Last(all), k)) by {
        CappedSnoc(hs, Last(all), k);
      }
    }
  }

  lemma {:induction false} CappedSnoc(hs: seq<set<nat>>, h: set<nat>, k: nat)
    ensures Capped(hs + [h], k) == Capped(hs, k) + ToSet(Newest.Newest(h, k))
  {
    hide Newest.Newest;
    var all := hs + [h];
    forall x | x in Capped(hs, k)
      ensures x in Capped(all, k)
    {
      var i :| 0 <= i < |hs| && x in Newest.Newest(hs[i], k);
      assert all[i] == hs[i];
    }
    forall x | x in Newest.Newest(h, k)
      ensures x in Capped(all, k)
    {
      assert all[|hs|] == h;
    }
  }

  ghost predicate IsUsed(keys: seq<Touch>, t: (string, Program), k: nat, mem: Program -> seq<Txid>) {
    mem(t.1) != [] || (k > 0 && TxnumsOf(keys, t.1) != {})
  }

  lemma {:induction false} HistoryEmpty(keys: seq<Touch>, p: Program, k: nat)
    ensures Newest.Newest(TxnumsOf(keys, p), k) == [] <==> k == 0 || TxnumsOf(keys, p) == {}
  {
    hide TxnumsOf;
  }

  /** `scan_plan`: who is used, every address's capped coins, what is pending,
      and the newest confirmed transactions. */
  method ScanPlan(targets: seq<(string, Program)>, k: nat, keys: seq<Touch>, txids: map<TxNum, Txid>,
                  mem: Program -> seq<Txid>, coins: Program -> seq<CoinRow>, v: Mempool.View,
                  ghost txs: map<Txid, TxRows>)
    returns (plan: Plan, ghost parts: seq<Listing>)
    requires KeyOrder(keys) && Mempool.IsView(v, txs) && Mempool.WellFormed(txs)
    requires forall p :: Distinct(coins(p)) && ToSet(mem(p)) == Mempool.Touching(txs, p)
    ensures Listings(targets, parts, coins, txs) && plan.utxos == Rowed(targets, parts)
    ensures plan.unlisted == Dusted(targets, parts)
    ensures forall a :: a in plan.used <==>
                        exists i :: 0 <= i < |targets| && targets[i].0 == a && IsUsed(keys, targets[i], k, mem)
    ensures var ids := Once(Mem(targets, mem)); plan.pending == if |ids| < 100 then ids else ids[..100]
    ensures var gone := PendingNums(txids, ToSet(Mem(targets, mem)));
            && plan.confirmed == Newest.Newest(Capped(Histories(keys, targets), k) - gone, k)
            && (gone !! Capped(Histories(keys, targets), k) ==>
                  plan.confirmed == Newest.Newest(All(Histories(keys, targets)) - gone, k))
  {
    hide Newest.Newest, TxnumsOf, Once, Capped, All, KeyOrder, IsUsed, Mempool.IsView, Mempool.WellFormed, Listings,
      Rowed, Dusted, Mempool.Touching, Distinct;
    var used, pending, confirmed := [], [], [];
    var utxos, unlisted := [], [];
    parts := [];
    OnceNone();
    NoListings(coins, txs);
    assert targets[..0] == [];
    for i := 0 to |targets|
      invariant forall a :: a in used <==>
                            exists j :: 0 <= j < i && targets[j].0 == a && IsUsed(keys, targets[j], k, mem)
      invariant pending == Once(Mem(targets[..i], mem))
      invariant confirmed == Once(Rows(keys, targets[..i], k))
      invariant Listings(targets[..i], parts, coins, txs) && |parts| == i && utxos == Rowed(targets[..i], parts)
      invariant unlisted == Dusted(targets[..i], parts)
    {
      var t := targets[i];
      var rows := History(keys, t.1, k);
      var ids := mem(t.1);
      UsedExactly(keys, t, k, mem);
      if rows != [] || ids != [] {
        used := used + [t.0];
      }
      utxos, unlisted, parts := AddCoins(targets, i, coins, v, utxos, unlisted, txs, parts);
      ListingsSize(targets[..i + 1], parts, coins, txs);
      assert Init(targets[..i + 1]) == targets[..i];
      pending := Gather(pending, ids, Mem(targets[..i], mem));
      confirmed := Gather(confirmed, rows, Rows(keys, targets[..i], k));
    }
    assert targets[..|targets|] == targets;
    OnceMeans(Mem(targets, mem));
    OnceMeans(Rows(keys, targets, k));
    RowsAreCapped(keys, targets, k);
    var pendingIds := set x | x in pending;
    assert pendingIds == ToSet(Mem(targets, mem));
    assert ToSet(confirmed) == ToSet(Rows(keys, targets, k));
    var left := WithoutPending(confirmed, txids, pendingIds);
    ghost var gone := PendingNums(txids, pendingIds);
    if gone !! Capped(Histories(keys, targets), k) {
      CapLosesNothing(Histories(keys, targets), k, gone);
    }
    confirmed := SortAndCut(left, k);
    plan := Plan(used, utxos, unlisted, if |pending| < PENDING_MAX then pending else pending[..PENDING_MAX], confirmed);
  }

  lemma {:induction false} NoListings(coins: Program -> seq<CoinRow>, txs: map<Txid, TxRows>)
    ensures Listings([], [], coins, txs) && Rowed([], []) == [] && Dusted([], []) == []
  {
  }

  lemma {:induction false} ListingsSize(targets: seq<(string, Program)>, parts: seq<Listing>,
                                        coins: Program -> seq<CoinRow>, txs: map<Txid, TxRows>)
    requires Listings(targets, parts, coins, txs)
    ensures |parts| == |targets|
  {
  }

  lemma {:induction false} UsedExactly(keys: seq<Touch>, t: (string, Program), k: nat, mem: Program -> seq<Txid>)
    ensures IsUsed(keys, t, k, mem) <==> Newest.Newest(TxnumsOf(keys, t.1), k) != [] || mem(t.1) != []
  {
    HistoryEmpty(keys, t.1, k);
  }

  /** `used` means "appeared in any transaction" iff some history is asked for. */
  lemma {:induction false} UsedNeedsHistory(k: nat)
    ensures k > 0 <==> forall keys: seq<Touch>, t: (string, Program), mem: Program -> seq<Txid> ::
                         IsUsed(keys, t, k, mem) <==> mem(t.1) != [] || TxnumsOf(keys, t.1) != {}
  {
    if k == 0 {
      var keys: seq<Touch> := [Touch(7, 0)];
      var t: (string, Program) := ("a", 7);
      var mem: Program -> seq<Txid> := p => [];
      assert keys[0].program == t.1;
      assert keys[0].txnum in TxnumsOf(keys, t.1);
      assert !(IsUsed(keys, t, k, mem) <==> mem(t.1) != [] || TxnumsOf(keys, t.1) != {});
    }
  }

  // ------------------------------------------------ one outpoint, several addresses

  /** No outpoint is listed twice, under one address or several. */
  ghost predicate ListedOnce(utxos: seq<(string, Mempool.Row)>) {
    forall i, j :: 0 <= i < j < |utxos| ==> utxos[i].1.op != utxos[j].1.op
  }

  /** The outpoints a capped listing of `p` shows. */
  ghost function Shown(coins: seq<CoinRow>, txs: map<Txid, TxRows>, p: Program): set<OutPoint> {
    (Live(coins, txs) - CutOff(coins, txs, MAX_ROWS)) + PendingOps(txs, p)
  }

  /** An output pays one program, confirmed or pending. */
  ghost predicate OneProgram(coins: Program -> seq<CoinRow>, txs: map<Txid, TxRows>) {
    forall p, q, o :: o in Shown(coins(p), txs, p) && o in Shown(coins(q), txs, q) ==> p == q
  }

  /** No program with anything to show is asked for under two addresses. */
  ghost predicate NoAlias(targets: seq<(string, Program)>, coins: Program -> seq<CoinRow>, txs: map<Txid, TxRows>) {
    forall i, j :: 0 <= i < j < |targets| && targets[i].1 == targets[j].1 ==>
                     Shown(coins(targets[i].1), txs, targets[i].1) == {}
  }

  /** Some target shows `o`. */
  ghost predicate Shows(targets: seq<(string, Program)>, coins: Program -> seq<CoinRow>, txs: map<Txid, TxRows>,
                        o: OutPoint) {
    exists i :: 0 <= i < |targets| && o in Shown(coins(targets[i].1), txs, targets[i].1)
  }

  ghost predicate InRowed(utxos: seq<(string, Mempool.Row)>, o: OutPoint) {
    exists i :: 0 <= i < |utxos| && utxos[i].1.op == o
  }

  lemma {:induction false} NamedOps(addr: string, rows: seq<Mempool.Row>, o: OutPoint)
    ensures InRowed(Named(addr, rows), o) <==> o in Mempool.Ops(rows)
    ensures Mempool.DistinctOps(rows) ==> ListedOnce(Named(addr, rows))
  {
    if o in Mempool.Ops(rows) {
      var r :| r in rows && r.op == o;
      var i :| 0 <= i < |rows| && rows[i] == r;
      assert Named(addr, rows)[i].1.op == o;
    }
  }

  lemma {:induction false} InConcat(a: seq<(string, Mempool.Row)>, b: seq<(string, Mempool.Row)>, o: OutPoint)
    ensures InRowed(a + b, o) <==> InRowed(a, o) || InRowed(b, o)
  {
    if i :| 0 <= i < |a| && a[i].1.op == o {
      assert (a + b)[i] == a[i];
    }
    if i :| 0 <= i < |b| && b[i].1.op == o {
      assert (a + b)[|a| + i] == b[i];
    }
  }

  lemma {:induction false} Clash(a: seq<(string, Mempool.Row)>, b: seq<(string, Mempool.Row)>, o: OutPoint)
    requires InRowed(a, o) && InRowed(b, o)
    ensures !ListedOnce(a + b)
  {
    var i :| 0 <= i < |a| && a[i].1.op == o;
    var j :| 0 <= j < |b| && b[j].1.op == o;
    assert (a + b)[i].1.op == (a + b)[|a| + j].1.op;
  }

  lemma {:induction false} NoClash(a: seq<(string, Mempool.Row)>, b: seq<(string, Mempool.Row)>)
    requires ListedOnce(a) && ListedOnce(b) && forall o :: InRowed(a, o) ==> !InRowed(b, o)
    ensures ListedOnce(a + b)
  {
    var all := a + b;
    forall i, j | 0 <= i < j < |all|
      ensures all[i].1.op != all[j].1.op
    {
      if i < |a| <= j {
        assert InRowed(a, a[i].1.op);
        assert all[j] == b[j - |a|];
      } else if i >= |a| {
        assert all[i] == b[i - |a|] && all[j] == b[j - |a|];
      }
    }
  }

  lemma {:induction false} OnceConcat(a: seq<(string, Mempool.Row)>, b: seq<(string, Mempool.Row)>)
    requires ListedOnce(b)
    ensures ListedOnce(a + b) <==> ListedOnce(a) && forall o :: InRowed(a, o) ==> !InRowed(b, o)
  {
    hide InRowed;
    forall o | InRowed(a, o) && InRowed(b, o)
      ensures !ListedOnce(a + b)
    {
      Clash(a, b, o);
    }
    if ListedOnce(a + b) {
      assert forall i :: 0 <= i < |a| ==> (a + b)[i] == a[i];
    } else if ListedOnce(a) && forall o :: InRowed(a, o) ==> !InRowed(b, o) {
      NoClash(a, b);
    }
  }

  lemma {:induction false} ListingShows(rows: seq<Mempool.Row>, rest: Unlisted, coins: seq<CoinRow>,
                                        txs: map<Txid, TxRows>, p: Program)
    requires CappedListing(rows, rest, coins, txs, p, MAX_ROWS)
    ensures Mempool.DistinctOps(rows) && Mempool.Ops(rows) == Shown(coins, txs, p)
  {
    hide Live, CutOff, PendingOps, RowSum, PairSum, PendingIn, PendingOutside, Accepted, Sum, TrueRows;
  }

  lemma {:induction false} ListingsInit(targets: seq<(string, Program)>, parts: seq<Listing>,
                                        coins: Program -> seq<CoinRow>, txs: map<Txid, TxRows>)
    requires Listings(targets, parts, coins, txs) && targets != []
    ensures parts != [] && Listings(Init(targets), Init(parts), coins, txs)
    ensures var p, t := Last(parts), Last(targets);
            CappedListing(p.rows, p.rest, coins(t.1), txs, t.1, MAX_ROWS)
  {
    hide CappedListing;
  }

  lemma {:induction false} ShowsLast(targets: seq<(string, Program)>, coins: Program -> seq<CoinRow>,
                                     txs: map<Txid, TxRows>, o: OutPoint)
    requires targets != []
    ensures var pre, t := Init(targets), Last(targets);
            Shows(targets, coins, txs, o) <==> Shows(pre, coins, txs, o) || o in Shown(coins(t.1), txs, t.1)
  {
    hide Shown;
    var pre, t := Init(targets), Last(targets);
    assert targets[|pre|] == t && forall i :: 0 <= i < |pre| ==> pre[i] == targets[i];
  }

  /** The rows of all listings are the outpoints their targets show. */
  lemma {:induction false} RowedShows(targets: seq<(string, Program)>, parts: seq<Listing>,
                                      coins: Program -> seq<CoinRow>, txs: map<Txid, TxRows>, o: OutPoint)
    requires Listings(targets, parts, coins, txs)
    ensures InRowed(Rowed(targets, parts), o) <==> Shows(targets, coins, txs, o)
  {
    hide CappedListing, Shown, Named;
    if targets != [] {
      var pre, t, p := Init(targets), Last(targets), Last(parts);
      ListingsInit(targets, parts, coins, txs);
      RowedShows(pre, Init(parts), coins, txs, o);
      ListingShows(p.rows, p.rest, coins(t.1), txs, t.1);
      NamedOps(t.0, p.rows, o);
      InConcat(Rowed(pre, Init(parts)), Named(t.0, p.rows), o);
      ShowsLast(targets, coins, txs, o);
    }
  }

  lemma {:induction false} SharedIsAlias(targets: seq<(string, Program)>, coins: Program -> seq<CoinRow>,
                                         txs: map<Txid, TxRows>, o: OutPoint)
    requires targets != [] && OneProgram(coins, txs) && Shows(Init(targets), coins, txs, o)
    requires o in Shown(coins(Last(targets).1), txs, Last(targets).1)
    ensures !NoAlias(targets, coins, txs)
  {
    hide Shown;
    var pre, n := Init(targets), |targets| - 1;
    var i :| 0 <= i < n && o in Shown(coins(pre[i].1), txs, pre[i].1);
    assert targets[i].1 == targets[n].1;
  }

  lemma {:induction false} AliasIsShared(targets: seq<(string, Program)>, coins: Program -> seq<CoinRow>,
                                         txs: map<Txid, TxRows>)
    returns (o: OutPoint)
    requires targets != [] && NoAlias(Init(targets), coins, txs) && !NoAlias(targets, coins, txs)
    ensures Shows(Init(targets), coins, txs, o) && o in Shown(coins(Last(targets).1), txs, Last(targets).1)
  {
    hide Shown;
    var pre, n := Init(targets), |targets| - 1;
    assert forall k :: 0 <= k < n ==> pre[k] == targets[k];
    var i, j :| && 0 <= i < j < |targets| && targets[i].1 == targets[j].1
                && Shown(coins(targets[i].1), txs, targets[i].1) != {};
    o :| o in Shown(coins(targets[i].1), txs, targets[i].1);
    assert o in Shown(coins(pre[i].1), txs, pre[i].1);
  }

  lemma {:induction false} AliasLast(targets: seq<(string, Program)>, coins: Program -> seq<CoinRow>,
                                     txs: map<Txid, TxRows>)
    requires targets != [] && OneProgram(coins, txs)
    ensures var pre, t := Init(targets), Last(targets);
            var disjoint := forall o :: Shows(pre, coins, txs, o) ==> o !in Shown(coins(t.1), txs, t.1);
            NoAlias(targets, coins, txs) <==> (NoAlias(pre, coins, txs) && disjoint)
  {
    hide Shown, Shows, OneProgram;
    var pre, t := Init(targets), Last(targets);
    forall o | Shows(pre, coins, txs, o) && o in Shown(coins(t.1), txs, t.1)
      ensures !NoAlias(targets, coins, txs)
    {
      SharedIsAlias(targets, coins, txs, o);
    }
    if NoAlias(targets, coins, txs) {
      assert forall i :: 0 <= i < |pre| ==> pre[i] == targets[i];
    } else if NoAlias(pre, coins, txs) {
      var o := AliasIsShared(targets, coins, txs);
    }
  }

  /** Across a whole scan each outpoint is listed once iff no program with
      anything to show is asked for under two addresses. */
  lemma {:induction false} OnceUnlessAliased(targets: seq<(string, Program)>, parts: seq<Listing>,
                                             coins: Program -> seq<CoinRow>, txs: map<Txid, TxRows>)
    requires Listings(targets, parts, coins, txs) && OneProgram(coins, txs)
    ensures ListedOnce(Rowed(targets, parts)) <==> NoAlias(targets, coins, txs)
  {
    hide CappedListing, Shown, Shows, Named, InRowed, OneProgram;
    if targets != [] {
      hide ListedOnce, NoAlias;
      var pre, t, p := Init(targets), Last(targets), Last(parts);
      ListingsInit(targets, parts, coins, txs);
      OnceUnlessAliased(pre, Init(parts), coins, txs);
      ListingShows(p.rows, p.rest, coins(t.1), txs, t.1);
      var a, b := Rowed(pre, Init(parts)), Named(t.0, p.rows);
      forall o
        ensures InRowed(b, o) <==> o in Shown(coins(t.1), txs, t.1)
        ensures InRowed(a, o) <==> Shows(pre, coins, txs, o)
      {
        NamedOps(t.0, p.rows, o);
        RowedShows(pre, Init(parts), coins, txs, o);
      }
      NamedOps(t.0, p.rows, OutPoint(0, 0));
      OnceConcat(a, b);
      AliasLast(targets, coins, txs);
    }
  }

  /** One coin, of one program. */
  ghost function OneCoin(p: Program, c: CoinRow): Program -> seq<CoinRow> {
    q => if q == p then [c] else []
  }

  lemma {:induction false} OneCoinShown(p: Program, c: CoinRow, q: Program)
    ensures Shown(OneCoin(p, c)(q), map[], q) == if q == p then {c.0} else {}
  {
    var rows := OneCoin(p, c)(q);
    assert Mempool.PoolSpent(map[]) == {} && PendingOps(map[], q) == {};
    assert OpsOf([c]) == {c.0} && OpsOf([]) == {};
    assert Higher([c], Unspent({}), c) == {};
    assert CutOff(rows, map[], MAX_ROWS) == {};
  }

  /** One address spelled in two ways: two strings, one program, and its coin is
      listed under both. */
  lemma {:induction false} SpelledTwice(lower: string, upper: string, p: Program, c: CoinRow, parts: seq<Listing>)
    requires lower != upper && Listings([(lower, p), (upper, p)], parts, OneCoin(p, c), map[])
    ensures !ListedOnce(Rowed([(lower, p), (upper, p)], parts))
  {
    hide CappedListing, Named, ListedOnce, Listings, Rowed, OneCoin, Shown;
    var targets := [(lower, p), (upper, p)];
    forall q
      ensures Shown(OneCoin(p, c)(q), map[], q) == if q == p then {c.0} else {}
    {
      OneCoinShown(p, c, q);
    }
    assert targets[0].1 == targets[1].1 == p;
    OnceUnlessAliased(targets, parts, OneCoin(p, c), map[]);
  }
}
