/** Who spent one output: a budgeted, cached, resumable scan of the node's
    blocks, and the linear scan it stands for. */
module Spends {
  import opened Types

  const MAX_SCAN_BLOCKS: nat := 2016
  const SCAN_BUDGET: nat := 50
  const MAX_CONCURRENT_SCANS: nat := 2
  const CACHE_MAX: nat := 10_000

  datatype Tx = Tx(txid: Txid, inputs: seq<OutPoint>)

  datatype NodeBlock = NodeBlock(hash: BlockHash, txs: seq<Tx>)

  /** `getrawtransaction`: output count, unspendable outputs, inputs, block. */
  datatype TxInfo = TxInfo(outputs: nat, nulldata: set<nat>, inputs: seq<OutPoint>, block: Option<BlockHash>)

  /** What the node answers during one call; `chain[h]` is the block at `h`. */
  datatype Node = Node(
    chain: seq<NodeBlock>,
    info: map<Txid, TxInfo>,
    unspent: set<OutPoint>,
    known: map<OutPoint, Txid>,
    unreadable: set<nat>)

  datatype Outspend = Unspent | Spent(txid: Txid, vin: nat, block: Option<(BlockHash, nat)>)

  datatype OutspendError = UnknownOutput | Pending | OutOfRange | NodeError

  type Answer = Result<Outspend, OutspendError>

  datatype Cached =
    | Spender(txid: Txid)
    | Found(txid: Txid, vin: nat, hash: BlockHash, height: nat)
    | Scanned(through: nat, hash: BlockHash)
    | Exhausted(last: nat)

  // --------------------------------------------------------- the linear scan

  /** The index of the first input spending `op`. */
  function Position(inputs: seq<OutPoint>, op: OutPoint): (p: Option<nat>)
    ensures p.Some? ==> p.value < |inputs| && inputs[p.value] == op && op !in inputs[..p.value]
    ensures p.None? ==> op !in inputs
  {
    if inputs == [] then None
    else
      var p := Position(Init(inputs), op);
      if p.Some? then p else if Last(inputs) == op then Some(|inputs| - 1) else None
  }

  /** The first transaction of a block spending `op`, and its input. */
  function SpendIn(txs: seq<Tx>, op: OutPoint): (s: Option<(Txid, nat)>)
    ensures s.Some? ==> SpendsAt(txs, op, s.value.0, s.value.1)
    ensures s.None? ==> forall i :: 0 <= i < |txs| ==> op !in txs[i].inputs
  {
    if txs == [] then None
    else
      var s := SpendIn(Init(txs), op);
      if s.Some? then
        assert SpendsAt(txs, op, s.value.0, s.value.1) by {
          var i :| 0 <= i < |Init(txs)| && SpendsBy(Init(txs)[i], op, s.value.0, s.value.1);
          assert SpendsBy(txs[i], op, s.value.0, s.value.1);
        }
        s
      else
        var p := Position(Last(txs).inputs, op);
        if p.Some? then
          assert SpendsBy(txs[|txs| - 1], op, Last(txs).txid, p.value);
          Some((Last(txs).txid, p.value))
        else None
  }

  predicate SpendsBy(tx: Tx, op: OutPoint, txid: Txid, vin: nat) {
    tx.txid == txid && vin < |tx.inputs| && tx.inputs[vin] == op
  }

  predicate SpendsAt(txs: seq<Tx>, op: OutPoint, txid: Txid, vin: nat) {
    exists i :: 0 <= i < |txs| && SpendsBy(txs[i], op, txid, vin)
  }

  /** The first height in `lo..hi` whose block spends `op`. */
  function FirstSpend(chain: seq<NodeBlock>, op: OutPoint, lo: nat, hi: nat): (h: Option<nat>)
    requires hi <= |chain|
    ensures h.Some? ==> lo <= h.value < hi && SpendIn(chain[h.value].txs, op).Some? && NoSpend(chain, op, lo, h.value)
    ensures h.None? ==> NoSpend(chain, op, lo, hi)
    decreases hi - lo
  {
    if lo >= hi then None
    else if SpendIn(chain[lo].txs, op).Some? then Some(lo)
    else FirstSpend(chain, op, lo + 1, hi)
  }

  ghost predicate NoSpend(chain: seq<NodeBlock>, op: OutPoint, lo: nat, hi: nat)
    requires hi <= |chain|
  {
    forall h :: lo <= h < hi ==> SpendIn(chain[h].txs, op).None?
  }

  function HeightOf(chain: seq<NodeBlock>, hash: BlockHash): (h: Option<nat>)
    ensures h.Some? ==> h.value < |chain| && chain[h.value].hash == hash
    ensures h.None? ==> forall i :: 0 <= i < |chain| ==> chain[i].hash != hash
  {
    if chain == [] then None
    else if Last(chain).hash == hash then Some(|chain| - 1)
    else HeightOf(Init(chain), hash)
  }

  predicate HasTx(txs: seq<Tx>, txid: Txid) {
    exists i :: 0 <= i < |txs| && txs[i].txid == txid
  }

  /** A block at or below `through` holds transaction `txid`. */
  predicate FundedBy(chain: seq<NodeBlock>, txid: Txid, through: nat) {
    exists g :: 0 <= g <= through && g < |chain| && HasTx(chain[g].txs, txid)
  }

  function SpentAt(chain: seq<NodeBlock>, op: OutPoint, h: nat): Answer
    requires h < |chain| && SpendIn(chain[h].txs, op).Some?
  {
    var s := SpendIn(chain[h].txs, op).value;
    Ok(Outspend.Spent(s.0, s.1, Some((chain[h].hash, h))))
  }

  function FundedAt(nd: Node, txid: Txid): Option<nat> {
    if txid !in nd.info || nd.info[txid].block.None? then None
    else HeightOf(nd.chain, nd.info[txid].block.value)
  }

  function LastSearched(nd: Node, funded: nat): nat
    requires nd.chain != []
  {
    if |nd.chain| - 1 < funded + MAX_SCAN_BLOCKS then |nd.chain| - 1 else funded + MAX_SCAN_BLOCKS
  }

  /** The whole search in one unbudgeted pass over the window. */
  function Linear(nd: Node, op: OutPoint, funded: nat): Answer
    requires nd.chain != [] && funded < |nd.chain|
  {
    var last := LastSearched(nd, funded);
    var h := FirstSpend(nd.chain, op, funded, last + 1);
    if h.Some? then SpentAt(nd.chain, op, h.value)
    else if last == funded + MAX_SCAN_BLOCKS then Err(OutOfRange)
    else Err(Pending)
  }

  // ------------------------------------------------ the node's own knowledge

  /** A block hash commits to its height and every block below it. */
  ghost predicate HashesBind(a: seq<NodeBlock>, b: seq<NodeBlock>) {
    forall i, j :: 0 <= i < |a| && 0 <= j < |b| && a[i].hash == b[j].hash ==> i == j && a[..i + 1] == b[..j + 1]
  }

  ghost predicate OnceOnly(chain: seq<NodeBlock>) {
    forall t, g, h :: 0 <= g < |chain| && 0 <= h < |chain| && HasTx(chain[g].txs, t) && HasTx(chain[h].txs, t) ==>
                        g == h
  }

  /** A consistent node: no txid is in two blocks, and a transaction it places
      in a main-chain block is there, with those inputs, and no earlier block
      spends its outputs. */
  ghost predicate Honest(nd: Node) {
    && nd.chain != []
    && OnceOnly(nd.chain)
    && (forall t :: t in nd.info && FundedAt(nd, t).Some? ==>
                      && Tx(t, nd.info[t].inputs) in nd.chain[FundedAt(nd, t).value].txs
                      && forall h, op: OutPoint :: 0 <= h < FundedAt(nd, t).value && op.txid == t ==>
                                                     SpendIn(nd.chain[h].txs, op).None?)
  }

  /** `spent_by`: the spend by a transaction the node named. */
  function SpentBy(nd: Node, spend: Txid, op: OutPoint): Answer {
    if spend !in nd.info then Err(Pending)
    else
      var vin := Position(nd.info[spend].inputs, op);
      if vin.None? then Err(Pending)
      else
        var h := FundedAt(nd, spend);
        Ok(Outspend.Spent(spend, vin.value, if h.None? then None else Some((nd.info[spend].block.value, h.value))))
  }

  /** The answer for a spender `s` the node named: its first input that spends
      `op`, and its block if that is on the main chain; if the node does not know
      `s`, or `s` does not spend `op`, the caller is to ask again. */
  ghost predicate Names(nd: Node, op: OutPoint, s: Txid, r: Answer) {
    if s in nd.info && op in nd.info[s].inputs then
      && r.Ok? && r.value.Spent? && r.value.txid == s
      && r.value.vin < |nd.info[s].inputs| && nd.info[s].inputs[r.value.vin] == op
      && op !in nd.info[s].inputs[..r.value.vin]
      && match r.value.block {
           case Some((x, h)) => nd.info[s].block == Some(x) && h < |nd.chain| && nd.chain[h].hash == x
           case None => nd.info[s].block.None? || forall b :: b in nd.chain ==> b.hash != nd.info[s].block.value
         }
    else r == Err(Pending)
  }

  lemma {:induction false} SpentByNames(nd: Node, s: Txid, op: OutPoint)
    ensures Names(nd, op, s, SpentBy(nd, s, op))
  {
    hide Position, HeightOf;
  }

  /** A mined answer names a block of the current chain that holds the spend. */
  ghost predicate OnChain(nd: Node, op: OutPoint, r: Answer) {
    r.Ok? && r.value.Spent? && r.value.block.Some? ==>
      var (hash, h) := r.value.block.value;
      h < |nd.chain| && nd.chain[h].hash == hash && SpendsAt(nd.chain[h].txs, op, r.value.txid, r.value.vin)
  }

  lemma {:induction false} SpentByOnChain(nd: Node, spend: Txid, op: OutPoint)
    requires Honest(nd)
    ensures OnChain(nd, op, SpentBy(nd, spend, op))
  {
    if spend in nd.info && FundedAt(nd, spend).Some? && Position(nd.info[spend].inputs, op).Some? {
      var h := FundedAt(nd, spend).value;
      var i :| 0 <= i < |nd.chain[h].txs| && nd.chain[h].txs[i] == Tx(spend, nd.info[spend].inputs);
      assert SpendsBy(nd.chain[h].txs[i], op, spend, Position(nd.info[spend].inputs, op).value);
    }
  }

  // ---------------------------------------------------------- what is cached

  /** A cached fact about `op`, true of the chain it was learned from. */
  ghost predicate TrueOf(c: Cached, op: OutPoint, chain: seq<NodeBlock>) {
    match c
    case Spender(_) => true
    case Found(txid, vin, hash, height) => height < |chain| && chain[height].hash == hash &&
                                           SpendsAt(chain[height].txs, op, txid, vin)
    case Scanned(through, hash) => through < |chain| && chain[through].hash == hash &&
                                   NoSpend(chain, op, 0, through + 1) && FundedBy(chain, op.txid, through)
    case Exhausted(last) => last < |chain| && NoSpend(chain, op, 0, last + 1)
  }

  ghost predicate Learned(c: Cached, op: OutPoint, seen: seq<seq<NodeBlock>>) {
    exists k :: 0 <= k < |seen| && TrueOf(c, op, seen[k])
  }

  /** A fact whose block the node still has still holds, whatever was
      reorganised above it. */
  lemma {:induction false} StillTrue(c: Cached, op: OutPoint, was: seq<NodeBlock>, now: seq<NodeBlock>)
    requires TrueOf(c, op, was) && HashesBind(was, now)
    ensures c.Found? && HeightOf(now, c.hash) == Some(c.height) ==> TrueOf(c, op, now)
    ensures c.Scanned? && HeightOf(now, c.hash) == Some(c.through) ==> TrueOf(c, op, now)
  {
    if c.Found? && HeightOf(now, c.hash) == Some(c.height) {
      assert was[c.height] == was[..c.height + 1][c.height] && now[c.height] == now[..c.height + 1][c.height];
    }
    if c.Scanned? && HeightOf(now, c.hash) == Some(c.through) {
      forall h | 0 <= h <= c.through
        ensures SpendIn(now[h].txs, op).None? && now[h] == was[h]
      {
        assert was[h] == was[..c.through + 1][h] && now[h] == now[..c.through + 1][h];
      }
      var g :| 0 <= g <= c.through && g < |was| && HasTx(was[g].txs, op.txid);
      assert now[g] == was[g];
    }
  }

  /** Where the scan resumes: past the cached progress if the node still has
      its block, else at the funding block. */
  function Resume(nd: Node, c: Option<Cached>, funded: nat): nat {
    if c.Some? && c.value.Scanned? && HeightOf(nd.chain, c.value.hash) == Some(c.value.through) then c.value.through + 1
    else funded
  }

  /** What a call answers and remembers, and the heights `lo..hi` it fetches,
      for a spent output with no spender known, when nothing fails. */
  datatype Outcome = Outcome(answer: Answer, cached: Option<Cached>, lo: nat, hi: nat)

  function Stop(last: nat, from: nat): nat {
    if last < from + SCAN_BUDGET - 1 then last else from + SCAN_BUDGET - 1
  }

  function Scan(nd: Node, op: OutPoint, c: Option<Cached>, funded: nat, from: nat): Outcome
    requires nd.chain != [] && funded < |nd.chain|
  {
    var last := LastSearched(nd, funded);
    var stop := Stop(last, from);
    var h := FirstSpend(nd.chain, op, from, stop + 1);
    if h.Some? then
      var s := SpendIn(nd.chain[h.value].txs, op).value;
      Outcome(SpentAt(nd.chain, op, h.value), Some(Found(s.0, s.1, nd.chain[h.value].hash, h.value)), from, h.value + 1)
    else
      var progress := if from <= stop then Some(Scanned(stop, nd.chain[stop].hash)) else c;
      var hi := if from <= stop then stop + 1 else from;
      if stop < last then Outcome(Err(Pending), progress, from, hi)
      else if last == funded + MAX_SCAN_BLOCKS then Outcome(Err(OutOfRange), Some(Exhausted(last)), from, hi)
      else Outcome(Err(Pending), progress, from, hi)
  }

  function Search(nd: Node, op: OutPoint, c: Option<Cached>): Outcome
    requires nd.chain != []
  {
    if c.Some? && c.value.Spender? && MinedBy(nd, c.value.txid, op) then
      var s := SpentBy(nd, c.value.txid, op).value;
      Outcome(Ok(s), Some(Found(s.txid, s.vin, s.block.value.0, s.block.value.1)), 0, 0)
    else if c.Some? && c.value.Found? && HeightOf(nd.chain, c.value.hash) == Some(c.value.height) then
      Outcome(Mined(c.value), c, 0, 0)
    else if c.Some? && c.value.Exhausted? then Outcome(Err(OutOfRange), c, 0, 0)
    else
      var funded := FundedAt(nd, op.txid);
      if funded.None? then Outcome(Err(Pending), c, 0, 0)
      else
        var from := Resume(nd, c, funded.value);
        if from == funded.value &&
           |nd.chain| - 1 > funded.value + MAX_SCAN_BLOCKS then Outcome(Err(OutOfRange), c, 0, 0)
        else Scan(nd, op, c, funded.value, from)
  }

  function Mined(c: Cached): Answer
    requires c.Found?
  {
    Ok(Outspend.Spent(c.txid, c.vin, Some((c.hash, c.height))))
  }

  predicate MinedBy(nd: Node, spend: Txid, op: OutPoint) {
    var r := SpentBy(nd, spend, op);
    r.Ok? && r.value.Spent? && r.value.block.Some?
  }

  // --------------------------------------------------------------- soundness

  ghost predicate Bound(seen: seq<seq<NodeBlock>>, chain: seq<NodeBlock>) {
    forall k :: 0 <= k < |seen| ==> HashesBind(seen[k], chain)
  }

  lemma {:induction false} LearnedNow(c: Cached, op: OutPoint, seen: seq<seq<NodeBlock>>, chain: seq<NodeBlock>)
    requires TrueOf(c, op, chain)
    ensures Learned(c, op, seen + [chain])
  {
    assert (seen + [chain])[|seen|] == chain;
  }

  lemma {:induction false} LearnedBefore(c: Cached, op: OutPoint, seen: seq<seq<NodeBlock>>, chain: seq<NodeBlock>)
    requires Learned(c, op, seen)
    ensures Learned(c, op, seen + [chain])
  {
    var k :| 0 <= k < |seen| && TrueOf(c, op, seen[k]);
    assert (seen + [chain])[k] == seen[k];
  }

  /** Valid progress means no spend at or below it: everything before the
      height a scan resumes at is known to be free of the spend. */
  lemma {:induction false} NothingBelowResume(nd: Node, op: OutPoint, c: Option<Cached>, seen: seq<seq<NodeBlock>>)
    requires Honest(nd) && FundedAt(nd, op.txid).Some? && Bound(seen, nd.chain)
    requires c.Some? ==> Learned(c.value, op, seen)
    ensures Resume(nd, c, FundedAt(nd, op.txid).value) <= |nd.chain|
    ensures NoSpend(nd.chain, op, 0, Resume(nd, c, FundedAt(nd, op.txid).value))
    ensures FundedAt(nd, op.txid).value <= Resume(nd, c, FundedAt(nd, op.txid).value)
  {
    hide SpendIn, HasTx;
    var funded := FundedAt(nd, op.txid).value;
    if c.Some? && c.value.Scanned? && HeightOf(nd.chain, c.value.hash) == Some(c.value.through) {
      var k :| 0 <= k < |seen| && TrueOf(c.value, op, seen[k]);
      StillTrue(c.value, op, seen[k], nd.chain);
      var g :| 0 <= g <= c.value.through && g < |nd.chain| && HasTx(nd.chain[g].txs, op.txid);
      HoldsFunding(nd, op.txid);
      assert g == funded;
    }
  }

  lemma {:induction false} HoldsFunding(nd: Node, txid: Txid)
    requires Honest(nd) && FundedAt(nd, txid).Some?
    ensures HasTx(nd.chain[FundedAt(nd, txid).value].txs, txid)
  {
    var txs := nd.chain[FundedAt(nd, txid).value].txs;
    var i :| 0 <= i < |txs| && txs[i] == Tx(txid, nd.info[txid].inputs);
  }

  lemma {:induction false} ScanSound(nd: Node, op: OutPoint, c: Option<Cached>, funded: nat, from: nat,
                                     seen: seq<seq<NodeBlock>>)
    requires nd.chain != [] && funded <= from <= |nd.chain| && NoSpend(nd.chain, op, 0, from)
    requires funded < |nd.chain| && HasTx(nd.chain[funded].txs, op.txid)
    requires c.Some? ==> Learned(c.value, op, seen)
    ensures var o := Scan(nd, op, c, funded, from);
            && OnChain(nd, op, o.answer)
            && (o.cached.Some? ==> Learned(o.cached.value, op, seen + [nd.chain]))
  {
    hide SpendIn, SpendsAt, HasTx;
    var o := Scan(nd, op, c, funded, from);
    var last := LastSearched(nd, funded);
    var stop := Stop(last, from);
    SpendInOk(nd.chain, op);
    if c.Some? {
      LearnedBefore(c.value, op, seen, nd.chain);
    }
    if o.cached.Some? && o.cached != c {
      assert TrueOf(o.cached.value, op, nd.chain);
      LearnedNow(o.cached.value, op, seen, nd.chain);
    }
  }

  lemma {:induction false} SpendInOk(chain: seq<NodeBlock>, op: OutPoint)
    ensures forall h :: 0 <= h < |chain| && SpendIn(chain[h].txs, op).Some? ==>
                          SpendsAt(chain[h].txs, op, SpendIn(chain[h].txs, op).value.0,
                                   SpendIn(chain[h].txs, op).value.1)
  {
  }

  /** Every answer is true of the current chain and every fact kept is true of
      a chain the node has had, through any reorganisations between calls. */
  lemma {:induction false} SearchSound(nd: Node, op: OutPoint, c: Option<Cached>, seen: seq<seq<NodeBlock>>)
    requires Honest(nd) && Bound(seen, nd.chain)
    requires c.Some? ==> Learned(c.value, op, seen)
    ensures var o := Search(nd, op, c);
            && OnChain(nd, op, o.answer)
            && (o.cached.Some? ==> Learned(o.cached.value, op, seen + [nd.chain]))
            && o.answer != Ok(Unspent)
  {
    hide SpendIn, SpendsAt, Scan, Position;
    if c.Some? {
      LearnedBefore(c.value, op, seen, nd.chain);
    }
    if c.Some? && c.value.Spender? && MinedBy(nd, c.value.txid, op) {
      SpentByOnChain(nd, c.value.txid, op);
      var s := SpentBy(nd, c.value.txid, op).value;
      LearnedNow(Found(s.txid, s.vin, s.block.value.0, s.block.value.1), op, seen, nd.chain);
    } else if c.Some? && c.value.Found? && HeightOf(nd.chain, c.value.hash) == Some(c.value.height) {
      var k :| 0 <= k < |seen| && TrueOf(c.value, op, seen[k]);
      StillTrue(c.value, op, seen[k], nd.chain);
    } else if c.Some? && c.value.Exhausted? {
    } else if FundedAt(nd, op.txid).Some? {
      var funded := FundedAt(nd, op.txid).value;
      var from := Resume(nd, c, funded);
      NothingBelowResume(nd, op, c, seen);
      HoldsFunding(nd, op.txid);
      ScanSound(nd, op, c, funded, from, seen);
      ScanIsSpent(nd, op, c, funded, from);
    }
  }

  lemma {:induction false} ScanIsSpent(nd: Node, op: OutPoint, c: Option<Cached>, funded: nat, from: nat)
    requires nd.chain != [] && funded < |nd.chain|
    ensures Scan(nd, op, c, funded, from).answer != Ok(Unspent)
  {
    hide SpendIn;
  }

  // ------------------------------------------------- equal to one linear scan

  lemma {:induction false} FirstSpendSkips(chain: seq<NodeBlock>, op: OutPoint, lo: nat, mid: nat, hi: nat)
    requires lo <= mid <= |chain| && hi <= |chain| && NoSpend(chain, op, lo, mid)
    ensures lo <= hi ==> mid <= hi ==> FirstSpend(chain, op, lo, hi) == FirstSpend(chain, op, mid, hi)
    decreases mid - lo
  {
    hide SpendIn;
    if lo < mid {
      FirstSpendSkips(chain, op, lo + 1, mid, hi);
    }
  }

  lemma {:induction false} FirstSpendEarly(chain: seq<NodeBlock>, op: OutPoint, lo: nat, mid: nat, hi: nat)
    requires mid <= hi <= |chain|
    ensures FirstSpend(chain, op, lo, mid).Some? ==> FirstSpend(chain, op, lo, hi) == FirstSpend(chain, op, lo, mid)
    decreases mid - lo
  {
    hide SpendIn;
    if lo < mid && SpendIn(chain[lo].txs, op).None? {
      FirstSpendEarly(chain, op, lo + 1, mid, hi);
    }
  }

  /** A budgeted scan past blocks known to be free of the spend gives the
      linear scan's answer, or asks to be called again. */
  lemma {:induction false} ScanIsLinear(nd: Node, op: OutPoint, c: Option<Cached>, funded: nat, from: nat)
    requires nd.chain != [] && funded < |nd.chain| && funded <= from <= LastSearched(nd, funded) + 1
    requires NoSpend(nd.chain, op, funded, from)
    ensures var o, last := Scan(nd, op, c, funded, from), LastSearched(nd, funded);
            o.answer == Linear(nd, op, funded) || (o.answer == Err(Pending) && Stop(last, from) < last)
    ensures var o, last := Scan(nd, op, c, funded, from), LastSearched(nd, funded);
            from + SCAN_BUDGET > last ==> o.answer == Linear(nd, op, funded)
  {
    hide SpendIn;
    var last := LastSearched(nd, funded);
    var stop := Stop(last, from);
    FirstSpendSkips(nd.chain, op, funded, from, last + 1);
    FirstSpendEarly(nd.chain, op, from, stop + 1, last + 1);
  }

  // --------------------------------------------- repeated calls on one chain

  /** The cache entry after `k` more calls on a chain that does not change. */
  function After(nd: Node, op: OutPoint, c: Option<Cached>, k: nat): Option<Cached>
    requires nd.chain != []
    decreases k
  {
    if k == 0 then c else After(nd, op, Search(nd, op, c).cached, k - 1)
  }

  /** The entry names a spend that is mined on the current chain. */
  predicate Knows(nd: Node, op: OutPoint, c: Option<Cached>) {
    c.Some? && ((c.value.Spender? && MinedBy(nd, c.value.txid, op)) ||
                (c.value.Found? && HeightOf(nd.chain, c.value.hash) == Some(c.value.height)))
  }

  /** No valid progress, and a funding block too old to start searching. */
  predicate Refused(nd: Node, c: Option<Cached>, funded: nat) {
    Resume(nd, c, funded) == funded && |nd.chain| - 1 > funded + MAX_SCAN_BLOCKS
  }

  /** Calls answer without fetching anything. */
  predicate Silent(nd: Node, op: OutPoint, c: Option<Cached>, funded: nat) {
    Knows(nd, op, c) || (c.Some? && c.value.Exhausted?) || Refused(nd, c, funded)
  }

  function SilentAnswer(nd: Node, op: OutPoint, c: Option<Cached>): Answer {
    if !Knows(nd, op, c) then Err(OutOfRange)
    else if c.value.Spender? then SpentBy(nd, c.value.txid, op)
    else Mined(c.value)
  }

  /** What every learned entry gives a fixed chain: its progress is sound. */
  ghost predicate Sound(nd: Node, op: OutPoint, c: Option<Cached>, funded: nat) {
    && nd.chain != [] && HashesBind(nd.chain, nd.chain) && FundedAt(nd, op.txid) == Some(funded)
    && funded <= Resume(nd, c, funded) <= |nd.chain|
    && NoSpend(nd.chain, op, 0, Resume(nd, c, funded))
  }

  lemma {:induction false} OwnHeight(nd: Node, h: nat)
    requires HashesBind(nd.chain, nd.chain) && h < |nd.chain|
    ensures HeightOf(nd.chain, nd.chain[h].hash) == Some(h)
  {
  }

  lemma {:induction false} LastFits(nd: Node, funded: nat)
    requires nd.chain != [] && funded < |nd.chain|
    ensures funded <= LastSearched(nd, funded) < |nd.chain|
  {
  }

  lemma {:induction false} EmptyRange(chain: seq<NodeBlock>, op: OutPoint, lo: nat, hi: nat)
    requires hi <= lo && hi <= |chain|
    ensures FirstSpend(chain, op, lo, hi) == None
  {
  }

  /** A silent entry gives its answer again and stays silent. */
  lemma {:induction false} SilentStays(nd: Node, op: OutPoint, c: Option<Cached>, funded: nat)
    requires nd.chain != [] && FundedAt(nd, op.txid) == Some(funded) && Silent(nd, op, c, funded)
    ensures var o := Search(nd, op, c);
            && o.answer == SilentAnswer(nd, op, c) && o.lo >= o.hi
            && Silent(nd, op, o.cached, funded) && SilentAnswer(nd, op, o.cached) == SilentAnswer(nd, op, c)
  {
    hide Scan, Position, HeightOf, SpendIn;
  }

  /** One call of a scan in progress: it settles on the linear answer, or it
      moves on by one budget, or it waits at the tip. */
  ghost predicate Advances(nd: Node, op: OutPoint, funded: nat, from: nat, o: Outcome)
    requires nd.chain != [] && funded < |nd.chain|
  {
    var last := LastSearched(nd, funded);
    && (o.lo >= o.hi || o.lo == from)
    && if Silent(nd, op, o.cached, funded) then o.answer == Linear(nd, op, funded) == SilentAnswer(nd, op, o.cached)
       else
         var next := Resume(nd, o.cached, funded);
         && Sound(nd, op, o.cached, funded) && from <= next && (o.lo < o.hi ==> o.hi <= next)
         && (if next == from then from > last else next == Stop(last, from) + 1)
         && (from + SCAN_BUDGET > last ==> o.answer == Linear(nd, op, funded))
  }

  lemma {:induction false} ScanAdvances(nd: Node, op: OutPoint, c: Option<Cached>, funded: nat)
    requires Sound(nd, op, c, funded) && !Silent(nd, op, c, funded)
    ensures funded < |nd.chain| && Advances(nd, op, funded, Resume(nd, c, funded), Search(nd, op, c))
  {
    hide Linear, SpendIn, FirstSpend, Position;
    var from, last := Resume(nd, c, funded), LastSearched(nd, funded);
    var stop := Stop(last, from);
    var o := Scan(nd, op, c, funded, from);
    assert Search(nd, op, c) == o;
    if from > last {
      EmptyRange(nd.chain, op, from, stop + 1);
      LinearPastWindow(nd, op, funded, from);
    } else {
      ScanIsLinear(nd, op, c, funded, from);
      var h := FirstSpend(nd.chain, op, from, stop + 1);
      if h.Some? {
        OwnHeight(nd, h.value);
      } else {
        OwnHeight(nd, stop);
      }
    }
  }

  /** Progress at or past the end of the window settles the linear answer. */
  lemma {:induction false} LinearPastWindow(nd: Node, op: OutPoint, funded: nat, from: nat)
    requires nd.chain != [] && funded < |nd.chain| && LastSearched(nd, funded) < from <= |nd.chain|
    requires NoSpend(nd.chain, op, 0, from)
    ensures Linear(nd, op, funded) ==
            Err(if LastSearched(nd, funded) == funded + MAX_SCAN_BLOCKS then OutOfRange else Pending)
  {
    hide SpendIn;
  }

  lemma {:induction false} StaysSilent(nd: Node, op: OutPoint, c: Option<Cached>, funded: nat, k: nat)
    requires nd.chain != [] && FundedAt(nd, op.txid) == Some(funded) && Silent(nd, op, c, funded)
    ensures var o := Search(nd, op, After(nd, op, c, k)); o.answer == SilentAnswer(nd, op, c) && o.lo >= o.hi
    decreases k
  {
    hide Search, Silent, SilentAnswer;
    SilentStays(nd, op, c, funded);
    if k > 0 {
      StaysSilent(nd, op, Search(nd, op, c).cached, funded, k - 1);
    }
  }

  lemma {:induction false} ScanSettles(nd: Node, op: OutPoint, c: Option<Cached>, funded: nat, k: nat)
    requires Sound(nd, op, c, funded) && !Silent(nd, op, c, funded)
    requires Resume(nd, c, funded) + (k + 1) * SCAN_BUDGET > LastSearched(nd, funded)
    ensures Search(nd, op, After(nd, op, c, k)).answer == Linear(nd, op, funded)
    decreases k
  {
    hide Search, Silent, SilentAnswer, Linear, LastSearched, Resume, NoSpend, HashesBind, FundedAt;
    ScanAdvances(nd, op, c, funded);
    var o := Search(nd, op, c);
    if k > 0 {
      assert (k + 1) * SCAN_BUDGET == k * SCAN_BUDGET + SCAN_BUDGET;
      if Silent(nd, op, o.cached, funded) {
        StaysSilent(nd, op, o.cached, funded, k - 1);
      } else {
        ScanSettles(nd, op, o.cached, funded, k - 1);
      }
    }
  }

  /** An output is spent by one input of one transaction. */
  ghost predicate SpentOnce(chain: seq<NodeBlock>, op: OutPoint) {
    forall g, h, t, u, v, w ::
      0 <= g < |chain| && 0 <= h < |chain| && SpendsAt(chain[g].txs, op, t, v) && SpendsAt(chain[h].txs, op, u, w) ==>
        g == h && t == u && v == w
  }

  /** A learned entry that knows the spend answers it, and that is the linear
      scan's answer iff the spend lies in the window. */
  lemma {:induction false} KnownIsLinear(nd: Node, op: OutPoint, c: Option<Cached>, funded: nat,
                                         seen: seq<seq<NodeBlock>>)
    requires Honest(nd) && Bound(seen, nd.chain) && SpentOnce(nd.chain, op) && FundedAt(nd, op.txid) == Some(funded)
    requires Knows(nd, op, c) && Learned(c.value, op, seen)
    ensures var r := SilentAnswer(nd, op, c);
            && OnChain(nd, op, r) && r.Ok? && r.value.Spent? && r.value.block.Some?
            && (r == Linear(nd, op, funded) <==> r.value.block.value.1 <= funded + MAX_SCAN_BLOCKS)
  {
    hide SpendIn, SpendsAt, Position, Linear;
    var r := SilentAnswer(nd, op, c);
    if c.value.Spender? {
      SpentByOnChain(nd, c.value.txid, op);
    } else {
      var k :| 0 <= k < |seen| && TrueOf(c.value, op, seen[k]);
      StillTrue(c.value, op, seen[k], nd.chain);
    }
    LinearOfSpend(nd, op, funded, r.value.block.value.1, r.value.txid, r.value.vin);
  }

  lemma {:induction false} LinearOfSpend(nd: Node, op: OutPoint, funded: nat, h: nat, txid: Txid, vin: nat)
    requires Honest(nd) && SpentOnce(nd.chain, op) && FundedAt(nd, op.txid) == Some(funded)
    requires h < |nd.chain| && SpendsAt(nd.chain[h].txs, op, txid, vin)
    ensures if h <= funded + MAX_SCAN_BLOCKS then Linear(nd, op, funded) ==
                                                  Ok(Outspend.Spent(txid, vin, Some((nd.chain[h].hash, h))))
            else Linear(nd, op, funded) == Err(OutOfRange)
  {
    hide SpendIn, SpendsAt, FirstSpend;
    var last := LastSearched(nd, funded);
    SpendInOk(nd.chain, op);
    SpendInSome(nd.chain[h].txs, op, txid, vin);
    assert funded <= h;
    var f := FirstSpend(nd.chain, op, funded, last + 1);
    if h <= funded + MAX_SCAN_BLOCKS {
      assert h <= last && f.Some?;
    }
  }

  lemma {:induction false} SpendInSome(txs: seq<Tx>, op: OutPoint, txid: Txid, vin: nat)
    requires SpendsAt(txs, op, txid, vin)
    ensures SpendIn(txs, op).Some?
  {
    var i :| 0 <= i < |txs| && SpendsBy(txs[i], op, txid, vin);
  }

  /** From whatever entry earlier calls left, on whatever chains, repeated calls
      on a fixed chain settle: a known spend is answered at once; a search that
      can go on gives the linear scan's answer once enough budgets are spent;
      what is left is refused for good. */
  lemma {:induction false} SettlesOnLinear(nd: Node, op: OutPoint, c: Option<Cached>, seen: seq<seq<NodeBlock>>,
                                           funded: nat, k: nat)
    requires Honest(nd) && Bound(seen, nd.chain) && HashesBind(nd.chain, nd.chain) && SpentOnce(nd.chain, op)
    requires FundedAt(nd, op.txid) == Some(funded) && (c.Some? ==> Learned(c.value, op, seen))
    requires Resume(nd, c, funded) + (k + 1) * SCAN_BUDGET > LastSearched(nd, funded)
    ensures var r := Search(nd, op, After(nd, op, c, k)).answer;
            if Knows(nd, op, c) then
              && OnChain(nd, op, r) && r.Ok? && r.value.Spent? && r.value.block.Some?
              && (r == Linear(nd, op, funded) <==> r.value.block.value.1 <= funded + MAX_SCAN_BLOCKS)
            else if Silent(nd, op, c, funded) then r == Err(OutOfRange)
            else r == Linear(nd, op, funded)
  {
    hide SpendIn, Search, Linear, Position, OnChain, Resume, LastSearched, SpentOnce;
    LearnedIsSound(nd, op, c, seen, funded);
    if Silent(nd, op, c, funded) {
      StaysSilent(nd, op, c, funded, k);
      if Knows(nd, op, c) {
        KnownIsLinear(nd, op, c, funded, seen);
      }
    } else {
      ScanSettles(nd, op, c, funded, k);
    }
  }

  lemma {:induction false} LearnedIsSound(nd: Node, op: OutPoint, c: Option<Cached>, seen: seq<seq<NodeBlock>>,
                                          funded: nat)
    requires Honest(nd) && Bound(seen, nd.chain) && HashesBind(nd.chain, nd.chain)
    requires FundedAt(nd, op.txid) == Some(funded) && (c.Some? ==> Learned(c.value, op, seen))
    ensures Sound(nd, op, c, funded)
  {
    hide SpendIn, Resume, NoSpend, Bound;
    NothingBelowResume(nd, op, c, seen);
  }

  // ------------------------------------------------------- no block is refetched

  /** Call number `k` fetches nothing below where the first one resumed. */
  lemma {:induction false} FetchesAhead(nd: Node, op: OutPoint, c: Option<Cached>, funded: nat, k: nat)
    requires Sound(nd, op, c, funded)
    ensures var o := Search(nd, op, After(nd, op, c, k)); o.lo >= o.hi || o.lo >= Resume(nd, c, funded)
    decreases k
  {
    hide Search, Silent, SilentAnswer, Linear, LastSearched, Resume, NoSpend, HashesBind, FundedAt;
    if Silent(nd, op, c, funded) {
      StaysSilent(nd, op, c, funded, k);
    } else {
      ScanAdvances(nd, op, c, funded);
      if k > 0 {
        var o := Search(nd, op, c);
        if Silent(nd, op, o.cached, funded) {
          StaysSilent(nd, op, o.cached, funded, k - 1);
        } else {
          FetchesAhead(nd, op, o.cached, funded, k - 1);
        }
      }
    }
  }

  lemma {:induction false} FirstAgainstLater(nd: Node, op: OutPoint, c: Option<Cached>, funded: nat, k: nat, h: nat)
    requires Sound(nd, op, c, funded) && k > 0
    requires Search(nd, op, c).lo <= h < Search(nd, op, c).hi
    ensures var o := Search(nd, op, After(nd, op, c, k)); !(o.lo <= h < o.hi)
  {
    hide Search, Silent, SilentAnswer, Linear, LastSearched, Resume, NoSpend, HashesBind, FundedAt;
    var o := Search(nd, op, c);
    if Silent(nd, op, c, funded) {
      StaysSilent(nd, op, c, funded, 0);
    } else {
      ScanAdvances(nd, op, c, funded);
      if Silent(nd, op, o.cached, funded) {
        StaysSilent(nd, op, o.cached, funded, k - 1);
      } else {
        FetchesAhead(nd, op, o.cached, funded, k - 1);
      }
    }
  }

  lemma {:induction false} OnceEach(nd: Node, op: OutPoint, c: Option<Cached>, funded: nat, i: nat, j: nat, h: nat)
    requires Sound(nd, op, c, funded) && i < j
    requires Search(nd, op, After(nd, op, c, i)).lo <= h < Search(nd, op, After(nd, op, c, i)).hi
    ensures var o := Search(nd, op, After(nd, op, c, j)); !(o.lo <= h < o.hi)
    decreases i
  {
    hide Search, Silent, SilentAnswer, Linear, LastSearched, Resume, NoSpend, HashesBind, FundedAt;
    if i == 0 {
      FirstAgainstLater(nd, op, c, funded, j, h);
    } else if Silent(nd, op, c, funded) {
      StaysSilent(nd, op, c, funded, i);
    } else {
      ScanAdvances(nd, op, c, funded);
      var o := Search(nd, op, c);
      if Silent(nd, op, o.cached, funded) {
        StaysSilent(nd, op, o.cached, funded, i - 1);
      } else {
        OnceEach(nd, op, o.cached, funded, i - 1, j - 1, h);
      }
    }
  }

  /** On a fixed chain no block is fetched by two calls, nor one at or below
      valid progress, whatever entry the calls start from. */
  lemma {:induction false} FetchesEachBlockOnce(nd: Node, op: OutPoint, c: Option<Cached>, seen: seq<seq<NodeBlock>>,
                                                funded: nat, i: nat, h: nat)
    requires Honest(nd) && Bound(seen, nd.chain) && HashesBind(nd.chain, nd.chain)
    requires FundedAt(nd, op.txid) == Some(funded) && (c.Some? ==> Learned(c.value, op, seen))
    requires Search(nd, op, After(nd, op, c, i)).lo <= h < Search(nd, op, After(nd, op, c, i)).hi
    ensures h >= Resume(nd, c, funded)
    ensures forall j: nat :: j > i ==>
                               !(Search(nd, op, After(nd, op, c, j)).lo <= h < Search(nd, op, After(nd, op, c, j)).hi)
  {
    hide Search, Resume, Bound, Learned, Sound, FundedAt;
    LearnedIsSound(nd, op, c, seen, funded);
    FetchesAhead(nd, op, c, funded, i);
    forall j: nat | j > i
      ensures !(Search(nd, op, After(nd, op, c, j)).lo <= h < Search(nd, op, After(nd, op, c, j)).hi)
    {
      OnceEach(nd, op, c, funded, i, j, h);
    }
  }

  /** One call fetches at most 50 blocks, none past the 2016 after the funding. */
  lemma {:induction false} FetchesFew(nd: Node, op: OutPoint, c: Option<Cached>)
    requires nd.chain != []
    ensures var o := Search(nd, op, c);
            && o.hi <= o.lo + 50
            && (o.lo < o.hi ==> FundedAt(nd, op.txid).Some? && o.hi <= FundedAt(nd, op.txid).value + 2017)
  {
    hide SpendIn, HeightOf, Position;
  }

  // -------------------------------------------------------------- the lookups

  function CachedFor(cache: map<OutPoint, Cached>, op: OutPoint): Option<Cached> {
    if op in cache then Some(cache[op]) else None
  }

  /** The search slots leave none for `op`. */
  predicate Busy(scanning: set<OutPoint>, op: OutPoint) {
    op in scanning || |scanning| >= MAX_CONCURRENT_SCANS
  }

  /** Neither the cache nor the age of the funding block settles the answer. */
  predicate Scans(nd: Node, op: OutPoint, c: Option<Cached>) {
    && !Knows(nd, op, c) && !(c.Some? && c.value.Exhausted?)
    && FundedAt(nd, op.txid).Some? && !Refused(nd, c, FundedAt(nd, op.txid).value)
  }

  /** The first height of `lo..hi` whose block the node does not give. */
  function FirstUnreadable(nd: Node, lo: nat, hi: nat): (u: Option<nat>)
    ensures u.Some? ==> lo <= u.value < hi && u.value in nd.unreadable
    ensures u.Some? ==> forall h :: lo <= h < u.value ==> h !in nd.unreadable
    ensures u.None? ==> forall h :: lo <= h < hi ==> h !in nd.unreadable
    decreases hi - lo
  {
    if lo >= hi then None else if lo in nd.unreadable then Some(lo) else FirstUnreadable(nd, lo + 1, hi)
  }

  /** The outcome `o` of a scan, cut short where the node does not give a block:
      what came before it is remembered. */
  ghost predicate CutShort(nd: Node, op: OutPoint, was: Option<Cached>, o: Outcome, r: Answer, now: Option<Cached>,
                           more: seq<(OutPoint, nat)>) {
    match FirstUnreadable(nd, o.lo, o.hi)
    case None => r == o.answer && now == o.cached && more == Heights(op, o.lo, o.hi)
    case Some(u) =>
      && r == Err(NodeError) && more == Heights(op, o.lo, u)
      && (u > o.lo ==> u <= |nd.chain|)
      && now == if u == o.lo then was else Some(Scanned(u - 1, nd.chain[u - 1].hash))
  }

  /** What a call answers, remembers and fetches for a spent output with no spender
      named: a scan needs a slot and readable blocks, the rest needs neither. */
  ghost predicate Answered(nd: Node, op: OutPoint, was: Option<Cached>, busy: bool, r: Answer, now: Option<Cached>,
                           more: seq<(OutPoint, nat)>)
    requires nd.chain != []
  {
    var o := Search(nd, op, was);
    if !Scans(nd, op, was) then r == o.answer && now == o.cached && more == []
    else if busy then r == Err(Pending) && now == was && more == []
    else CutShort(nd, op, was, o, r, now, more)
  }

  /** The output is spent and the node names no spender. */
  ghost predicate SpentUnknown(nd: Node, op: OutPoint) {
    && op.txid in nd.info && op.vout < nd.info[op.txid].outputs && op.vout !in nd.info[op.txid].nulldata
    && op !in nd.unspent && op !in nd.known
  }

  /** The output is spent and the node names the spender. */
  ghost predicate SpentKnown(nd: Node, op: OutPoint) {
    && op.txid in nd.info && op.vout < nd.info[op.txid].outputs && op.vout !in nd.info[op.txid].nulldata
    && op !in nd.unspent && op in nd.known
  }

  lemma {:induction false} NamedIsSpent(nd: Node, op: OutPoint, s: Txid, r: Answer)
    requires Names(nd, op, s, r)
    ensures r != Ok(Unspent) && r != Err(UnknownOutput)
  {
  }

  /** Facts that progress is given up for when the cache is full. */
  predicate Lasting(c: Cached) {
    c.Spender? || c.Found?
  }

  /** No entry but that of `op` is new or altered. */
  ghost predicate OthersKept(was: map<OutPoint, Cached>, now: map<OutPoint, Cached>, op: OutPoint) {
    forall o :: o in now && o != op ==> o in was && now[o] == was[o]
  }

  lemma {:induction false} AllKept(kept: map<OutPoint, Cached>, cache: map<OutPoint, Cached>)
    requires kept.Keys <= cache.Keys && forall o :: o in cache ==> (o in kept <==> Lasting(cache[o]))
    ensures |kept| >= |cache| <==> forall o :: o in cache ==> Lasting(cache[o])
  {
    if o :| o in cache && !Lasting(cache[o]) {
      SubsetSize(kept.Keys, cache.Keys - {o});
    } else {
      assert kept.Keys == cache.Keys;
    }
  }

  lemma {:induction false} ReadableTo(nd: Node, lo: nat, hi: nat)
    requires forall h :: lo <= h < hi ==> h !in nd.unreadable
    ensures FirstUnreadable(nd, lo, hi) == None
  {
  }

  lemma {:induction false} UnreadableAt(nd: Node, op: OutPoint, lo: nat, h: nat, hi: nat)
    requires lo <= h < hi <= |nd.chain| && h in nd.unreadable && NoSpend(nd.chain, op, lo, h)
    requires forall g :: lo <= g < h ==> g !in nd.unreadable
    ensures var f := FirstSpend(nd.chain, op, lo, hi);
            FirstUnreadable(nd, lo, if f.Some? then f.value + 1 else hi) == Some(h)
  {
    hide SpendIn;
    var f := FirstSpend(nd.chain, op, lo, hi);
    assert f.Some? ==> f.value >= h;
  }

  /** How a loop over `from..=stop` ends: at the first unreadable block, at the
      first spend, or with progress up to `stop`. */
  ghost predicate LoopEnds(nd: Node, op: OutPoint, from: nat, stop: nat, was: Option<Cached>, r: Option<Answer>,
                           now: Option<Cached>, more: seq<(OutPoint, nat)>)
    requires stop < |nd.chain|
  {
    var h := FirstSpend(nd.chain, op, from, stop + 1);
    var u := FirstUnreadable(nd, from, if h.Some? then h.value + 1 else stop + 1);
    if u.Some? then
      && r == Some(Err(NodeError)) && more == Heights(op, from, u.value)
      && now == if u.value == from then was else Some(Scanned(u.value - 1, nd.chain[u.value - 1].hash))
    else if h.Some? then
      && r == Some(SpentAt(nd.chain, op, h.value)) && more == Heights(op, from, h.value + 1)
      && now == Some(FoundAt(nd.chain, op, h.value))
    else
      && r == None && more == Heights(op, from, stop + 1)
      && now == if from <= stop then Some(Scanned(stop, nd.chain[stop].hash)) else was
  }

  lemma {:induction false} UnreadableEnds(nd: Node, op: OutPoint, from: nat, h: nat, stop: nat, was: Option<Cached>)
    requires from <= h <= stop < |nd.chain| && h in nd.unreadable && NoSpend(nd.chain, op, from, h)
    requires forall g :: from <= g < h ==> g !in nd.unreadable
    ensures LoopEnds(nd, op, from, stop, was, Some(Err(NodeError)),
                     if h == from then was else Some(Scanned(h - 1, nd.chain[h - 1].hash)), Heights(op, from, h))
  {
    hide SpendIn, FirstSpend, FirstUnreadable, Heights;
    UnreadableAt(nd, op, from, h, stop + 1);
  }

  lemma {:induction false} FoundEnds(nd: Node, op: OutPoint, from: nat, h: nat, stop: nat, was: Option<Cached>)
    requires from <= h <= stop < |nd.chain| && NoSpend(nd.chain, op, from, h) && SpendIn(nd.chain[h].txs, op).Some?
    requires forall g :: from <= g <= h ==> g !in nd.unreadable
    ensures LoopEnds(nd, op, from, stop, was, Some(SpentAt(nd.chain, op, h)), Some(FoundAt(nd.chain, op, h)),
                     Heights(op, from, h + 1))
  {
    hide SpendIn, FirstSpend, FirstUnreadable, Heights;
    FirstAt(nd.chain, op, from, h, stop + 1);
    ReadableTo(nd, from, h + 1);
  }

  lemma {:induction false} NothingEnds(nd: Node, op: OutPoint, from: nat, stop: nat, was: Option<Cached>)
    requires stop < |nd.chain| && NoSpend(nd.chain, op, from, stop + 1)
    requires forall g :: from <= g <= stop ==> g !in nd.unreadable
    ensures LoopEnds(nd, op, from, stop, was, None,
                     if from <= stop then Some(Scanned(stop, nd.chain[stop].hash)) else was,
                     Heights(op, from, stop + 1))
  {
    hide SpendIn, FirstSpend, FirstUnreadable, Heights;
    NoneAt(nd.chain, op, from, stop + 1);
    ReadableTo(nd, from, stop + 1);
  }

  /** What the loop's end makes of the scan. */
  lemma {:induction false} LoopCuts(nd: Node, op: OutPoint, funded: nat, from: nat, was: Option<Cached>,
                                    hit: Option<Answer>, now: Option<Cached>, more: seq<(OutPoint, nat)>)
    requires nd.chain != [] && funded < |nd.chain| && funded <= from
    requires LoopEnds(nd, op, from, Stop(LastSearched(nd, funded), from), was, hit, now, more)
    ensures var last := LastSearched(nd, funded);
            var full := Stop(last, from) == last == funded + MAX_SCAN_BLOCKS;
            CutShort(nd, op, was, Scan(nd, op, was, funded, from),
                     if hit.Some? then hit.value else if full then Err(OutOfRange) else Err(Pending),
                     if hit.None? && full then Some(Exhausted(last)) else now, more)
  {
    hide SpendIn, FirstSpend, FirstUnreadable, Heights;
    HeightsNone(op, from, Stop(LastSearched(nd, funded), from) + 1);
    HeightsNone(op, from, from);
    NoHeights(nd, from);
  }

  lemma {:induction false} NoHeights(nd: Node, lo: nat)
    ensures forall hi: nat :: hi <= lo ==> FirstUnreadable(nd, lo, hi) == None
  {
  }

  /** The heights `lo..hi`, in order. */
  function Heights(op: OutPoint, lo: nat, hi: nat): (hs: seq<(OutPoint, nat)>) {
    if lo >= hi then [] else Heights(op, lo, hi - 1) + [(op, hi - 1)]
  }

  class Spends {
    var cache: map<OutPoint, Cached>
    /** The search slots taken, by output. */
    var scanning: set<OutPoint>
    /** The chains earlier calls saw, this one's last. */
    ghost var seen: seq<seq<NodeBlock>>
    /** Every block fetched, and for which output. */
    ghost var fetched: seq<(OutPoint, nat)>

    ghost predicate Valid()
      reads this
    {
      && |cache| <= CACHE_MAX
      && |scanning| <= MAX_CONCURRENT_SCANS
      && forall op :: op in cache ==> Learned(cache[op], op, seen)
    }

    constructor ()
      ensures Valid() && cache == map[] && scanning == {} && seen == [] && fetched == []
    {
      cache, scanning, seen, fetched := map[], {}, [], [];
    }

    /** Takes a slot for `op` when one is free and `op` holds none; never waits. */
    method Claim(op: OutPoint) returns (ok: bool)
      requires Valid()
      modifies this`scanning
      ensures Valid()
      ensures ok <==> op !in old(scanning) && |old(scanning)| < 2
      ensures scanning == if ok then old(scanning) + {op} else old(scanning)
    {
      if op in scanning || |scanning| >= MAX_CONCURRENT_SCANS {
        return false;
      }
      scanning := scanning + {op};
      ok := true;
    }

    method Release(op: OutPoint)
      requires Valid() && op in scanning
      modifies this`scanning
      ensures Valid() && scanning == old(scanning) - {op}
    {
      scanning := scanning - {op};
    }

    /** Keep `c`; room is made by giving up progress, and failing that all else. */
    method Remember(op: OutPoint, c: Cached)
      requires Valid() && Learned(c, op, seen)
      modifies this`cache
      ensures Valid() && op in cache && cache[op] == c && |cache| <= 10_000
      ensures forall o :: o in cache && o != op ==> o in old(cache) && cache[o] == old(cache)[o]
      ensures |old(cache)| < CACHE_MAX || op in old(cache) ==> cache == old(cache)[op := c]
      ensures |old(cache)| >= CACHE_MAX && op !in old(cache) ==>
                forall o :: o in old(cache) ==>
                              (o in cache <==> (old(cache)[o].Spender? || old(cache)[o].Found?) &&
                                               exists p :: p in old(cache) && !Lasting(old(cache)[p]))
    {
      if |cache| >= CACHE_MAX && op !in cache {
        var kept := map o | o in cache && Lasting(cache[o]) :: cache[o];
        FewerKeys(kept, cache);
        AllKept(kept, cache);
        cache := kept;
        if |cache| >= CACHE_MAX {
          cache := map[];
        }
      }
      OneMoreKey(cache, op, c);
      cache := cache[op := c];
    }

    /** Fetch and search one block, remembering what it showed. */
    method ScanBlock(nd: Node, op: OutPoint, h: nat) returns (hit: bool)
      requires Valid() && seen != [] && Last(seen) == nd.chain && h < |nd.chain| && NoSpend(nd.chain, op, 0, h)
      requires FundedBy(nd.chain, op.txid, h)
      modifies this`cache, this`fetched
      ensures Valid() && fetched == old(fetched) + [(op, h)] && op in cache
      ensures hit <==> SpendIn(nd.chain[h].txs, op).Some?
      ensures cache[op] == if hit then FoundAt(nd.chain, op, h) else Scanned(h, nd.chain[h].hash)
      ensures OthersKept(old(cache), cache, op)
    {
      hide SpendIn, SpendsAt, Learned, FundedBy;
      fetched := fetched + [(op, h)];
      hit := SpendIn(nd.chain[h].txs, op).Some?;
      SpendInOk(nd.chain, op);
      var fact := if hit then FoundAt(nd.chain, op, h) else Scanned(h, nd.chain[h].hash);
      LearnedLast(fact, op, seen);
      Remember(op, fact);
    }

    /** Scan `from..=stop`, remembering progress block by block. */
    method ScanLoop(nd: Node, op: OutPoint, from: nat, stop: nat) returns (r: Option<Answer>)
      requires Valid() && seen != [] && Last(seen) == nd.chain && stop < |nd.chain| && from <= |nd.chain|
      requires NoSpend(nd.chain, op, 0, from)
      requires FundedBy(nd.chain, op.txid, from)
      modifies this`cache, this`fetched
      ensures Valid()
      ensures r.Some? ==> r.value == Err(NodeError) ||
                          (r.value.Ok? && r.value.value.Spent? && r.value.value.block.Some? && OnChain(nd, op, r.value))
      ensures r.None? ==> NoSpend(nd.chain, op, 0, if from <= stop then stop + 1 else from)
      ensures OthersKept(old(cache), cache, op) && old(fetched) <= fetched
      ensures LoopEnds(nd, op, from, stop, CachedFor(old(cache), op), r, CachedFor(cache, op),
                       fetched[|old(fetched)|..])
    {
      hide SpendIn, SpendsAt, Learned, FirstSpend, Heights, LoopEnds;
      HeightsNone(op, from, from);
      var h := from;
      while h <= stop
        invariant Valid() && from <= h && (h == from || h <= stop + 1)
        invariant NoSpend(nd.chain, op, from, h) && h <= |nd.chain|
        invariant CachedFor(cache, op) ==
                  if h == from then CachedFor(old(cache), op) else Some(Scanned(h - 1, nd.chain[h - 1].hash))
        invariant fetched == old(fetched) + Heights(op, from, h)
        invariant OthersKept(old(cache), cache, op) && forall g :: from <= g < h ==> g !in nd.unreadable
        decreases stop + 1 - h
      {
        if h in nd.unreadable {
          UnreadableEnds(nd, op, from, h, stop, CachedFor(old(cache), op));
          return Some(Err(NodeError));
        }
        HeightsMore(op, from, h);
        var hit := ScanBlock(nd, op, h);
        assert fetched[|old(fetched)|..] == Heights(op, from, h + 1);
        if hit {
          FoundEnds(nd, op, from, h, stop, CachedFor(old(cache), op));
          SpendInOk(nd.chain, op);
          return Some(SpentAt(nd.chain, op, h));
        }
        h := h + 1;
      }
      NothingEnds(nd, op, from, stop, CachedFor(old(cache), op));
      HeightsNone(op, from, stop + 1);
      r := None;
    }

    /** The claimed part of a lookup: scan one budget and conclude. */
    method ScanWindow(nd: Node, op: OutPoint, funded: nat, from: nat) returns (r: Answer)
      requires Valid() && seen != [] && Last(seen) == nd.chain && funded < |nd.chain| && funded <= from <= |nd.chain|
      requires NoSpend(nd.chain, op, 0, from)
      requires HasTx(nd.chain[funded].txs, op.txid)
      modifies this`cache, this`fetched, this`scanning
      ensures Valid() && scanning == old(scanning)
      ensures OnChain(nd, op, r) && r != Ok(Unspent) && r != Err(UnknownOutput)
      ensures OthersKept(old(cache), cache, op) && old(fetched) <= fetched
      ensures Busy(old(scanning), op) ==> r == Err(Pending) && cache == old(cache) && fetched == old(fetched)
      ensures !Busy(old(scanning), op) ==>
                CutShort(nd, op, CachedFor(old(cache), op), Scan(nd, op, CachedFor(old(cache), op), funded, from), r,
                         CachedFor(cache, op), fetched[|old(fetched)|..])
    {
      hide SpendIn, SpendsAt, Learned, FirstSpend, NoSpend, Heights, LoopEnds, CutShort, Scan;
      var ok := Claim(op);
      if !ok {
        return Err(Pending);
      }
      var last := LastSearched(nd, funded);
      var stop := Stop(last, from);
      LastFits(nd, funded);
      var hit := ScanLoop(nd, op, from, stop);
      LoopCuts(nd, op, funded, from, CachedFor(old(cache), op), hit, CachedFor(cache, op), fetched[|old(fetched)|..]);
      Release(op);
      assert scanning == old(scanning);
      if hit.Some? {
        return hit.value;
      }
      if stop < last {
        return Err(Pending);
      }
      if last == funded + MAX_SCAN_BLOCKS {
        ExhaustedNow(nd, op, from, stop, last, seen);
        Remember(op, Exhausted(last));
        return Err(OutOfRange);
      }
      r := Err(Pending);
    }

    /** Answer from the cache, or scan on: the output is spent and no spender is known. */
    method Lookup(nd: Node, op: OutPoint, ghost was: seq<seq<NodeBlock>>) returns (r: Answer)
      requires Valid() && Honest(nd) && Bound(was, nd.chain) && seen == was + [nd.chain]
      requires op in cache ==> Learned(cache[op], op, was)
      modifies this`cache, this`fetched, this`scanning
      ensures Valid() && scanning == old(scanning)
      ensures OnChain(nd, op, r) && r != Ok(Unspent) && r != Err(UnknownOutput)
      ensures OthersKept(old(cache), cache, op) && old(fetched) <= fetched
      ensures Answered(nd, op, CachedFor(old(cache), op), Busy(old(scanning), op), r, CachedFor(cache, op),
                       fetched[|old(fetched)|..])
    {
      hide SpendIn, SpendsAt, FirstSpend, NoSpend, Scan, Position, CutShort, HeightOf;
      var c := CachedFor(cache, op);
      SearchSound(nd, op, c, was);
      if c.Some? && c.value.Spender? && MinedBy(nd, c.value.txid, op) {
        var s := SpentBy(nd, c.value.txid, op).value;
        Remember(op, Found(s.txid, s.vin, s.block.value.0, s.block.value.1));
        return Ok(s);
      }
      if c.Some? && c.value.Found? && HeightOf(nd.chain, c.value.hash) == Some(c.value.height) {
        return Mined(c.value);
      }
      if c.Some? && c.value.Exhausted? {
        return Err(OutOfRange);
      }
      var funded := FundedAt(nd, op.txid);
      if funded.None? {
        return Err(Pending);
      }
      var from := Resume(nd, c, funded.value);
      if from == funded.value && |nd.chain| - 1 > funded.value + MAX_SCAN_BLOCKS {
        return Err(OutOfRange);
      }
      NothingBelowResume(nd, op, c, was);
      HoldsFunding(nd, op.txid);
      r := ScanWindow(nd, op, funded.value, from);
    }

    /** Who spent `op`, if anyone. One call sees one state of the node. */
    method Outspend(nd: Node, op: OutPoint) returns (r: Answer)
      requires Valid() && Honest(nd) && Bound(seen, nd.chain)
      modifies this
      ensures Valid() && seen == old(seen) + [nd.chain] && scanning == old(scanning)
      ensures OnChain(nd, op, r)
      ensures r == Err(UnknownOutput) <==> op.txid !in nd.info || op.vout >= nd.info[op.txid].outputs
      ensures r == Ok(Unspent) <==>
              op.txid in nd.info && op.vout < nd.info[op.txid].outputs &&
              (op.vout in nd.info[op.txid].nulldata || op in nd.unspent)
      ensures OthersKept(old(cache), cache, op) && old(fetched) <= fetched
      ensures !SpentUnknown(nd, op) ==> fetched == old(fetched)
      ensures !SpentUnknown(nd, op) && !SpentKnown(nd, op) ==> cache == old(cache)
      ensures SpentKnown(nd, op) ==>
                && Names(nd, op, nd.known[op], r)
                && if r.Ok? then CachedFor(cache, op) == Some(Spender(nd.known[op])) else cache == old(cache)
      ensures SpentUnknown(nd, op) ==>
                Answered(nd, op, CachedFor(old(cache), op), Busy(old(scanning), op), r, CachedFor(cache, op),
                         fetched[|old(fetched)|..])
    {
      hide SpendIn, SpendsAt, FirstSpend, NoSpend, Scan, SpentBy, Answered, Names, Learned;
      seen := seen + [nd.chain];
      AllLearned(cache, old(seen), nd.chain);
      if op.txid !in nd.info || op.vout >= nd.info[op.txid].outputs {
        return Err(UnknownOutput);
      }
      if op.vout in nd.info[op.txid].nulldata || op in nd.unspent {
        return Ok(Unspent);
      }
      if op in nd.known {
        r := SpentBy(nd, nd.known[op], op);
        SpentByOnChain(nd, nd.known[op], op);
        SpentByNames(nd, nd.known[op], op);
        NamedIsSpent(nd, op, nd.known[op], r);
        if r.Ok? {
          LearnedNow(Spender(nd.known[op]), op, old(seen), nd.chain);
          Remember(op, Spender(nd.known[op]));
        }
        return;
      }
      r := Lookup(nd, op, old(seen));
    }
  }

  lemma {:induction false} AllLearned(cache: map<OutPoint, Cached>, seen: seq<seq<NodeBlock>>, chain: seq<NodeBlock>)
    requires forall op :: op in cache ==> Learned(cache[op], op, seen)
    ensures forall op :: op in cache ==> Learned(cache[op], op, seen + [chain])
  {
    forall op | op in cache
      ensures Learned(cache[op], op, seen + [chain])
    {
      LearnedBefore(cache[op], op, seen, chain);
    }
  }

  lemma {:induction false} ExhaustedNow(nd: Node, op: OutPoint, from: nat, stop: nat, last: nat,
                                        seen: seq<seq<NodeBlock>>)
    requires seen != [] && Last(seen) == nd.chain && stop < |nd.chain| && from <= |nd.chain| && stop >= last
    requires last < |nd.chain|
    requires NoSpend(nd.chain, op, 0, if from <= stop then stop + 1 else from)
    ensures Learned(Exhausted(last), op, seen)
  {
    hide SpendIn;
    LearnedLast(Exhausted(last), op, seen);
  }

  function FoundAt(chain: seq<NodeBlock>, op: OutPoint, h: nat): Cached
    requires h < |chain| && SpendIn(chain[h].txs, op).Some?
  {
    var s := SpendIn(chain[h].txs, op).value;
    Found(s.0, s.1, chain[h].hash, h)
  }

  lemma {:induction false} FewerKeys(a: map<OutPoint, Cached>, b: map<OutPoint, Cached>)
    requires a.Keys <= b.Keys
    ensures |a| <= |b|
  {
    SubsetSize(a.Keys, b.Keys);
  }

  lemma {:induction false} OneMoreKey(m: map<OutPoint, Cached>, k: OutPoint, c: Cached)
    ensures |m[k := c]| == if k in m then |m| else |m| + 1
  {
    assert m[k := c].Keys == m.Keys + {k};
    assert k in m ==> m.Keys + {k} == m.Keys;
  }

  lemma {:induction false} LearnedLast(c: Cached, op: OutPoint, seen: seq<seq<NodeBlock>>)
    requires seen != [] && TrueOf(c, op, Last(seen))
    ensures Learned(c, op, seen)
  {
    assert seen[|seen| - 1] == Last(seen);
  }

  lemma {:induction false} FirstAt(chain: seq<NodeBlock>, op: OutPoint, lo: nat, h: nat, hi: nat)
    requires lo <= h < hi <= |chain| && NoSpend(chain, op, lo, h) && SpendIn(chain[h].txs, op).Some?
    ensures FirstSpend(chain, op, lo, hi) == Some(h)
  {
    hide SpendIn;
    FirstSpendSkips(chain, op, lo, h, hi);
  }

  lemma {:induction false} NoneAt(chain: seq<NodeBlock>, op: OutPoint, lo: nat, hi: nat)
    requires hi <= |chain|
    ensures NoSpend(chain, op, lo, hi) ==> FirstSpend(chain, op, lo, hi) == None
  {
    hide SpendIn;
  }

  lemma {:induction false} HeightsMore(op: OutPoint, lo: nat, hi: nat)
    requires lo <= hi
    ensures Heights(op, lo, hi + 1) == Heights(op, lo, hi) + [(op, hi)]
  {
  }

  lemma {:induction false} HeightsNone(op: OutPoint, lo: nat, hi: nat)
    ensures lo >= hi ==> Heights(op, lo, hi) == []
  {
  }
}
