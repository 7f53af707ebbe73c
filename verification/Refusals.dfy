/** When the spend search is right to answer "out of range": the two guards it
    refuses by, and for each exactly how far it can be trusted. */
module Refusals {
  import opened Types
  import opened Spends
  import Newest

  // ---------------------------------------------------- a chain that moved on

  /** New blocks from `|pre|` up to height `n - 1`: the funding transaction at
      `funded` unless `pre` holds it, and a spend of `op` at height `at`. */
  ghost function Fork(pre: seq<NodeBlock>, base: nat, n: nat, funded: nat, at: nat, op: OutPoint,
                      spender: Txid): seq<NodeBlock> {
    seq(n, i requires 0 <= i < n => if i < |pre| then pre[i]
      else NodeBlock(base + i, ForkTxs(i, funded, at, op, spender)))
  }

  ghost function ForkTxs(i: nat, funded: nat, at: nat, op: OutPoint, spender: Txid): seq<Tx> {
    (if i == funded then [Tx(op.txid, [])] else []) + (if i == at then [Tx(spender, [op])] else [])
  }

  ghost predicate ForkOk(pre: seq<NodeBlock>, base: nat, n: nat, funded: nat, at: nat, op: OutPoint, spender: Txid,
                         inputs: seq<OutPoint>) {
    && funded <= at < n && |pre| <= at
    && HashesBind(pre, pre) && OnceOnly(pre) && NoSpend(pre, op, 0, |pre|)
    && (forall i :: 0 <= i < |pre| ==> pre[i].hash < base)
    && spender != op.txid && (forall i :: 0 <= i < |pre| ==> !HasTx(pre[i].txs, spender))
    && (if funded < |pre| then Tx(op.txid, inputs) in pre[funded].txs else inputs == [] &&
                                                                           forall i :: 0 <= i < |pre| ==>
                                                                                         !HasTx(pre[i].txs, op.txid))
    && (forall i, o: OutPoint :: 0 <= i < |pre| && i < funded && o.txid == op.txid ==> SpendIn(pre[i].txs, o).None?)
  }

  ghost function ForkNode(pre: seq<NodeBlock>, base: nat, n: nat, funded: nat, at: nat, op: OutPoint, spender: Txid,
                          inputs: seq<OutPoint>): Node
    requires funded < n
  {
    var chain := Fork(pre, base, n, funded, at, op, spender);
    Node(chain, map[op.txid := TxInfo(op.vout + 1, {}, inputs, Some(chain[funded].hash))], {}, map[], {})
  }

  lemma {:induction false} ForkBinds(was: seq<NodeBlock>, pre: seq<NodeBlock>, base: nat, n: nat, funded: nat, at: nat,
                                     op: OutPoint, spender: Txid)
    requires pre <= was && HashesBind(was, was) && |pre| <= n
    requires forall i :: 0 <= i < |was| ==> was[i].hash < base
    ensures HashesBind(was, Fork(pre, base, n, funded, at, op, spender))
    ensures HashesBind(Fork(pre, base, n, funded, at, op, spender), Fork(pre, base, n, funded, at, op, spender))
  {
    hide ForkTxs;
    var now := Fork(pre, base, n, funded, at, op, spender);
    forall i, j | 0 <= i < |was| && 0 <= j < |now| && was[i].hash == now[j].hash
      ensures i == j && was[..i + 1] == now[..j + 1]
    {
      assert j < |pre| && now[j] == was[j];
      assert i == j;
      assert forall k :: 0 <= k <= i ==> now[k] == was[k];
    }
    forall i, j | 0 <= i < |now| && 0 <= j < |now| && now[i].hash == now[j].hash
      ensures i == j
    {
      if i < |pre| && j < |pre| {
        assert now[i] == was[i] && now[j] == was[j];
      }
    }
  }

  lemma {:induction false} ForkTxHas(i: nat, funded: nat, at: nat, op: OutPoint, spender: Txid, t: Txid)
    ensures HasTx(ForkTxs(i, funded, at, op, spender), t) <==>
            (i == funded && t == op.txid) || (i == at && t == spender)
  {
    var txs := ForkTxs(i, funded, at, op, spender);
    if i == funded {
      assert txs[0] == Tx(op.txid, []);
    }
    if i == at {
      assert txs[|txs| - 1] == Tx(spender, [op]);
    }
  }

  lemma {:induction false} ForkOnceOnly(pre: seq<NodeBlock>, base: nat, n: nat, funded: nat, at: nat, op: OutPoint,
                                        spender: Txid, inputs: seq<OutPoint>)
    requires ForkOk(pre, base, n, funded, at, op, spender, inputs)
    ensures OnceOnly(Fork(pre, base, n, funded, at, op, spender))
  {
    hide HasTx, SpendIn, ForkTxs;
    var now := Fork(pre, base, n, funded, at, op, spender);
    forall t, g, h | 0 <= g < |now| && 0 <= h < |now| && HasTx(now[g].txs, t) && HasTx(now[h].txs, t)
      ensures g == h
    {
      ForkTxHas(g, funded, at, op, spender, t);
      ForkTxHas(h, funded, at, op, spender, t);
      if funded < |pre| {
        FundingIn(pre[funded].txs, op.txid, inputs);
      }
    }
  }

  lemma {:induction false} FundingIn(txs: seq<Tx>, txid: Txid, inputs: seq<OutPoint>)
    requires Tx(txid, inputs) in txs
    ensures HasTx(txs, txid)
  {
    var i :| 0 <= i < |txs| && txs[i] == Tx(txid, inputs);
  }

  lemma {:induction false} ForkSpends(i: nat, funded: nat, at: nat, op: OutPoint, spender: Txid, o: OutPoint, t: Txid,
                                      v: nat)
    ensures SpendsAt(ForkTxs(i, funded, at, op, spender), o, t, v) <==> i == at && o == op && t == spender && v == 0
  {
    var txs := ForkTxs(i, funded, at, op, spender);
    if i == at {
      assert txs[|txs| - 1] == Tx(spender, [op]);
      assert SpendsBy(txs[|txs| - 1], op, spender, 0);
    }
  }

  lemma {:induction false} SpendInSpends(txs: seq<Tx>, o: OutPoint)
    requires SpendIn(txs, o).Some?
    ensures SpendsAt(txs, o, SpendIn(txs, o).value.0, SpendIn(txs, o).value.1)
  {
  }

  lemma {:induction false} ForkHonest(pre: seq<NodeBlock>, base: nat, n: nat, funded: nat, at: nat, op: OutPoint,
                                      spender: Txid, inputs: seq<OutPoint>)
    requires ForkOk(pre, base, n, funded, at, op, spender, inputs)
    ensures var nd := ForkNode(pre, base, n, funded, at, op, spender, inputs);
            && Honest(nd) && FundedAt(nd, op.txid) == Some(funded) && SpentOnce(nd.chain, op) &&
               HashesBind(nd.chain, nd.chain)
  {
    hide SpendIn, SpendsAt, HasTx, ForkTxs;
    var nd := ForkNode(pre, base, n, funded, at, op, spender, inputs);
    var now := nd.chain;
    ForkBinds(pre, pre, base, n, funded, at, op, spender);
    ForkOnceOnly(pre, base, n, funded, at, op, spender, inputs);
    OwnHeight(nd, funded);
    assert FundedAt(nd, op.txid) == Some(funded);
    assert Tx(op.txid, inputs) in now[funded].txs by {
      if funded >= |pre| {
        FundingAtFork(funded, at, op, spender);
      }
    }
    forall h, o: OutPoint | 0 <= h < funded && o.txid == op.txid
      ensures SpendIn(now[h].txs, o).None?
    {
      if h >= |pre| && SpendIn(now[h].txs, o).Some? {
        SpendInSpends(now[h].txs, o);
        var s := SpendIn(now[h].txs, o).value;
        ForkSpends(h, funded, at, op, spender, o, s.0, s.1);
      }
    }
    forall g, t, v | 0 <= g < |now| && SpendsAt(now[g].txs, op, t, v)
      ensures g == at && t == spender && v == 0
    {
      if g < |pre| {
        SpendInSome(pre[g].txs, op, t, v);
      } else {
        ForkSpends(g, funded, at, op, spender, op, t, v);
      }
    }
  }

  lemma {:induction false} FundingAtFork(funded: nat, at: nat, op: OutPoint, spender: Txid)
    ensures Tx(op.txid, []) in ForkTxs(funded, funded, at, op, spender)
  {
    assert ForkTxs(funded, funded, at, op, spender)[0] == Tx(op.txid, []);
  }

  lemma {:induction false} ForkIsFound(pre: seq<NodeBlock>, base: nat, n: nat, funded: nat, at: nat, op: OutPoint,
                                       spender: Txid, inputs: seq<OutPoint>)
    requires ForkOk(pre, base, n, funded, at, op, spender, inputs) && at <= funded + MAX_SCAN_BLOCKS
    ensures var nd := ForkNode(pre, base, n, funded, at, op, spender, inputs); Linear(nd, op, funded).Ok?
  {
    hide SpendIn, SpendsAt, HasTx, ForkTxs, FirstSpend;
    var nd := ForkNode(pre, base, n, funded, at, op, spender, inputs);
    ForkSpends(at, funded, at, op, spender, op, spender, 0);
    SpendInSome(nd.chain[at].txs, op, spender, 0);
    var last := LastSearched(nd, funded);
    assert at <= last;
    assert FirstSpend(nd.chain, op, funded, last + 1).Some?;
  }

  // -------------------------------------------------- refused without searching

  /** A chain with its tip at `tip`, whose block `funded` funds `op`. */
  ghost predicate TipAt(nd: Node, op: OutPoint, funded: nat, tip: nat) {
    && Honest(nd) && HashesBind(nd.chain, nd.chain) && SpentOnce(nd.chain, op)
    && FundedAt(nd, op.txid) == Some(funded) && |nd.chain| == tip + 1
  }

  ghost predicate LinearFrom(nd: Node, op: OutPoint, c: Option<Cached>, funded: nat, k: nat)
    requires nd.chain != [] && funded < |nd.chain|
  {
    forall j: nat :: j >= k ==> Search(nd, op, After(nd, op, c, j)).answer == Linear(nd, op, funded)
  }

  /** Repeated calls end up giving the linear scan's answer. */
  ghost predicate EndsLinear(nd: Node, op: OutPoint, c: Option<Cached>, funded: nat)
    requires nd.chain != [] && funded < |nd.chain|
  {
    exists k: nat :: LinearFrom(nd, op, c, funded, k)
  }

  lemma {:induction false} FundedFits(nd: Node, op: OutPoint, funded: nat, tip: nat)
    requires TipAt(nd, op, funded, tip)
    ensures nd.chain != [] && funded < |nd.chain|
  {
  }

  /** An entry learned on `seen` that is of no use on the chain of `nd`: it knows
      no mined spend and its progress, if any, is gone. */
  ghost predicate Useless(nd: Node, op: OutPoint, c: Option<Cached>, seen: seq<seq<NodeBlock>>, funded: nat) {
    Bound(seen, nd.chain) && !Knows(nd, op, c) && Resume(nd, c, funded) == funded
  }

  lemma {:induction false} YoungEndsLinear(nd: Node, op: OutPoint, c: Option<Cached>, seen: seq<seq<NodeBlock>>,
                                           funded: nat, tip: nat)
    requires TipAt(nd, op, funded, tip) && tip <= funded + MAX_SCAN_BLOCKS && funded < |nd.chain|
    requires Useless(nd, op, c, seen, funded) && (c.Some? ==> Learned(c.value, op, seen) && !c.value.Exhausted?)
    ensures EndsLinear(nd, op, c, funded)
  {
    hide Search, Linear, SpendIn, FirstSpend, Honest, SpentOnce, HashesBind, Learned, Knows, Resume, Bound;
    var last := LastSearched(nd, funded);
    forall j: nat | j >= last
      ensures Search(nd, op, After(nd, op, c, j)).answer == Linear(nd, op, funded)
    {
      assert (j + 1) * SCAN_BUDGET > last;
      SettlesOnLinear(nd, op, c, seen, funded, j);
    }
    assert LinearFrom(nd, op, c, funded, last);
  }

  /** Whatever entry earlier chains left, if it is of no use now the tip's age
      decides: on every chain with that tip the calls end up linear iff the
      funding block is at most `MAX_SCAN_BLOCKS` deep. Deeper, the search is
      refused unseen. */
  lemma {:induction false} RefusalIsExact(op: OutPoint, c: Option<Cached>, seen: seq<seq<NodeBlock>>, funded: nat,
                                          tip: nat)
    requires funded <= tip && (c.Some? ==> Learned(c.value, op, seen) && !c.value.Exhausted?)
    ensures (forall nd: Node :: TipAt(nd, op, funded, tip) && Useless(nd, op, c, seen, funded) ==>
                                  funded < |nd.chain| && EndsLinear(nd, op, c, funded))
       <==> tip <= funded + 2016
  {
    hide Search, Linear, SpendIn, FirstSpend, TipAt, EndsLinear, Useless, Learned;
    if tip <= funded + MAX_SCAN_BLOCKS {
      forall nd: Node | TipAt(nd, op, funded, tip) && Useless(nd, op, c, seen, funded)
        ensures funded < |nd.chain| && EndsLinear(nd, op, c, funded)
      {
        FundedFits(nd, op, funded, tip);
        YoungEndsLinear(nd, op, c, seen, funded, tip);
      }
    } else {
      var nd := RefusedFork(op, c, seen, funded, tip);
    }
  }

  /** A chain on which such an entry makes the search refuse for ever, though the
      spend lies inside the window. */
  lemma {:induction false} RefusedFork(op: OutPoint, c: Option<Cached>, seen: seq<seq<NodeBlock>>, funded: nat,
                                       tip: nat) returns (nd: Node)
    requires tip > funded + MAX_SCAN_BLOCKS && (c.Some? ==> Learned(c.value, op, seen) && !c.value.Exhausted?)
    ensures TipAt(nd, op, funded, tip) && Useless(nd, op, c, seen, funded)
    ensures funded < |nd.chain| && Linear(nd, op, funded).Ok? && !EndsLinear(nd, op, c, funded)
  {
    hide Search, Linear, SpendIn, FirstSpend, Honest, SpentOnce, HashesBind, Learned, Knows, Resume, Bound;
    var base := FreshHashes(seen);
    EmptyForkOk(op, funded, tip, base);
    ForkHonest([], base, tip + 1, funded, funded, op, op.txid + 1, []);
    ForkIsFound([], base, tip + 1, funded, funded, op, op.txid + 1, []);
    nd := ForkNode([], base, tip + 1, funded, funded, op, op.txid + 1, []);
    NewHashesAreUseless(nd, op, c, seen, funded, tip, base);
    forall k: nat
      ensures !LinearFrom(nd, op, c, funded, k)
    {
      StaysSilent(nd, op, c, funded, k);
    }
  }

  lemma {:induction false} NewHashesAreUseless(nd: Node, op: OutPoint, c: Option<Cached>, seen: seq<seq<NodeBlock>>,
                                               funded: nat, tip: nat, base: nat)
    requires funded <= tip && nd == ForkNode([], base, tip + 1, funded, funded, op, op.txid + 1, [])
    requires forall k, i :: 0 <= k < |seen| && 0 <= i < |seen[k]| ==> seen[k][i].hash < base
    requires c.Some? ==> Learned(c.value, op, seen)
    ensures Useless(nd, op, c, seen, funded)
  {
    hide SpendIn, ForkTxs, NoSpend, SpendsAt, FundedBy;
    if c.Some? && (c.value.Found? || c.value.Scanned?) {
      var k :| 0 <= k < |seen| && TrueOf(c.value, op, seen[k]);
      assert c.value.hash < base;
      assert HeightOf(nd.chain, c.value.hash) == None;
    }
    if c.Some? && c.value.Spender? {
      assert Position([], op) == None;
    }
  }

  lemma {:induction false} FreshHashes(seen: seq<seq<NodeBlock>>) returns (base: nat)
    ensures forall k, i :: 0 <= k < |seen| && 0 <= i < |seen[k]| ==> seen[k][i].hash < base
  {
    base := 0;
    for j := 0 to |seen|
      invariant forall k, i :: 0 <= k < j && 0 <= i < |seen[k]| ==> seen[k][i].hash < base
    {
      var b := FreshHash(seen[j]);
      base := if b > base then b else base;
    }
  }

  lemma {:induction false} EmptyForkOk(op: OutPoint, funded: nat, tip: nat, base: nat)
    requires funded <= tip
    ensures ForkOk([], base, tip + 1, funded, funded, op, op.txid + 1, [])
  {
    hide SpendIn;
  }

  // ------------------------------------------------------- an exhausted window

  /** The node moved from `nd0` to `nd`, keeping its lowest `h` blocks and the
      height that funds `op`. */
  ghost predicate MovedTo(nd0: Node, nd: Node, op: OutPoint, funded: nat, h: nat) {
    && Honest(nd) && HashesBind(nd0.chain, nd.chain) && HashesBind(nd.chain, nd.chain) && SpentOnce(nd.chain, op)
    && FundedAt(nd, op.txid) == Some(funded)
    && h <= |nd.chain| && h <= |nd0.chain| && nd.chain[..h] == nd0.chain[..h]
  }

  /** The window was searched on `was` and is still there: checking the hash of
      its last block is enough to trust the entry. */
  lemma {:induction false} ExhaustedStillRight(was: seq<NodeBlock>, nd: Node, op: OutPoint, funded: nat)
    requires HashesBind(was, nd.chain) && TrueOf(Exhausted(funded + MAX_SCAN_BLOCKS), op, was)
    requires funded + MAX_SCAN_BLOCKS < |nd.chain|
    requires nd.chain[funded + MAX_SCAN_BLOCKS].hash == was[funded + MAX_SCAN_BLOCKS].hash
    ensures Search(nd, op, Some(Exhausted(funded + MAX_SCAN_BLOCKS))).answer == Linear(nd, op, funded)
  {
    hide SpendIn;
    var last := funded + MAX_SCAN_BLOCKS;
    forall h | 0 <= h <= last
      ensures SpendIn(nd.chain[h].txs, op).None?
    {
      assert was[h] == was[..last + 1][h] && nd.chain[h] == nd.chain[..last + 1][h];
    }
  }

  /** An exhausted entry is right on every chain that keeps the lowest `h` blocks
      iff those include the whole window it searched. */
  lemma {:induction false} ExhaustedIsExact(nd0: Node, op: OutPoint, funded: nat, h: nat)
    requires Honest(nd0) && HashesBind(nd0.chain, nd0.chain) && FundedAt(nd0, op.txid) == Some(funded)
    requires TrueOf(Exhausted(funded + MAX_SCAN_BLOCKS), op, nd0.chain) && h <= |nd0.chain|
    ensures (forall nd: Node :: MovedTo(nd0, nd, op, funded, h) ==>
                                  funded < |nd.chain| &&
                                  Search(nd, op, Some(Exhausted(funded + MAX_SCAN_BLOCKS))).answer ==
                                  Linear(nd, op, funded))
       <==> h > funded + 2016
  {
    hide Search, Linear, SpendIn, FirstSpend, Honest, SpentOnce, HashesBind, TrueOf, FundedAt;
    var last := funded + MAX_SCAN_BLOCKS;
    if h > last {
      forall nd: Node | MovedTo(nd0, nd, op, funded, h)
        ensures funded < |nd.chain| && Search(nd, op, Some(Exhausted(last))).answer == Linear(nd, op, funded)
      {
        assert nd.chain[last] == nd.chain[..h][last] == nd0.chain[..h][last];
        ExhaustedStillRight(nd0.chain, nd, op, funded);
      }
    } else {
      var nd := StaleFork(nd0, op, funded, h);
    }
  }

  /** Any exhausted entry goes stale: whatever lower part of its chain is kept,
      the spend can turn up in the window, and the entry still denies it. */
  lemma {:induction false} StaleFork(nd0: Node, op: OutPoint, funded: nat, h: nat) returns (nd: Node)
    requires Honest(nd0) && HashesBind(nd0.chain, nd0.chain) && FundedAt(nd0, op.txid) == Some(funded)
    requires TrueOf(Exhausted(funded + MAX_SCAN_BLOCKS), op, nd0.chain) && h <= funded + MAX_SCAN_BLOCKS
    ensures MovedTo(nd0, nd, op, funded, h) && funded < |nd.chain|
    ensures Linear(nd, op, funded).Ok?
    ensures Search(nd, op, Some(Exhausted(funded + MAX_SCAN_BLOCKS))).answer == Err(OutOfRange)
  {
    hide Linear, SpendIn, FirstSpend, Honest, SpentOnce, HashesBind, HasTx, Fork;
    var was, last := nd0.chain, funded + MAX_SCAN_BLOCKS;
    var pre := was[..h];
    var base := FreshHash(was);
    var spender := FreshTxid(was, op.txid);
    var inputs := if funded < h then nd0.info[op.txid].inputs else [];
    PrefixForkOk(nd0, op, funded, h, base, spender, inputs);
    ForkHonest(pre, base, |was|, funded, last, op, spender, inputs);
    ForkIsFound(pre, base, |was|, funded, last, op, spender, inputs);
    ForkBinds(was, pre, base, |was|, funded, last, op, spender);
    nd := ForkNode(pre, base, |was|, funded, last, op, spender, inputs);
    ForkPrefix(pre, base, |was|, funded, last, op, spender);
  }

  lemma {:induction false} ForkPrefix(pre: seq<NodeBlock>, base: nat, n: nat, funded: nat, at: nat, op: OutPoint,
                                      spender: Txid)
    requires |pre| <= n
    ensures |Fork(pre, base, n, funded, at, op, spender)| == n
    ensures Fork(pre, base, n, funded, at, op, spender)[..|pre|] == pre
  {
  }

  lemma {:induction false} PrefixForkOk(nd0: Node, op: OutPoint, funded: nat, h: nat, base: nat, spender: Txid,
                                        inputs: seq<OutPoint>)
    requires Honest(nd0) && HashesBind(nd0.chain, nd0.chain) && FundedAt(nd0, op.txid) == Some(funded)
    requires TrueOf(Exhausted(funded + MAX_SCAN_BLOCKS), op, nd0.chain) && h <= funded + MAX_SCAN_BLOCKS
    requires forall i :: 0 <= i < |nd0.chain| ==> nd0.chain[i].hash < base && !HasTx(nd0.chain[i].txs, spender)
    requires spender != op.txid && inputs == if funded < h then nd0.info[op.txid].inputs else []
    ensures ForkOk(nd0.chain[..h], base, |nd0.chain|, funded, funded + MAX_SCAN_BLOCKS, op, spender, inputs)
  {
    hide SpendIn, HasTx;
    var was := nd0.chain;
    var pre := was[..h];
    HoldsFunding(nd0, op.txid);
    forall i, j | 0 <= i < |pre| && 0 <= j < |pre| && pre[i].hash == pre[j].hash
      ensures i == j
    {
      assert was[i].hash == was[j].hash;
    }
  }

  lemma {:induction false} FreshHash(was: seq<NodeBlock>) returns (base: nat)
    ensures forall i :: 0 <= i < |was| ==> was[i].hash < base
  {
    var s := set i | 0 <= i < |was| :: was[i].hash;
    base := if s == {} then 0 else Newest.Max(s) + 1;
    forall i | 0 <= i < |was|
      ensures was[i].hash < base
    {
      assert was[i].hash in s;
    }
  }

  lemma {:induction false} FreshTxid(was: seq<NodeBlock>, other: Txid) returns (id: Txid)
    ensures id != other && forall i :: 0 <= i < |was| ==> !HasTx(was[i].txs, id)
  {
    var s := {other} + set i, j | 0 <= i < |was| && 0 <= j < |was[i].txs| :: was[i].txs[j].txid;
    id := Newest.Max(s) + 1;
    forall i, j | 0 <= i < |was| && 0 <= j < |was[i].txs|
      ensures was[i].txs[j].txid != id
    {
      assert was[i].txs[j].txid in s;
    }
    assert other in s;
  }
}
