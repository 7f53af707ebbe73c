/** The in-memory block table. */
module ChainState {
  import opened Types
  import opened Ledger
  import opened Chain
  import opened Machine

  /** Consecutive txnum ranges, possibly empty, as the writer numbers them. */
  ghost predicate Numbered(recs: seq<BlockRec>) {
    forall i :: 0 <= i < |recs| - 1 ==> recs[i].firstTxnum + recs[i].nTxs == recs[i + 1].firstTxnum
  }

  predicate Holds(rec: BlockRec, n: TxNum) {
    rec.firstTxnum <= n < rec.firstTxnum + rec.nTxs
  }

  lemma {:induction false} RangesGrow(recs: seq<BlockRec>, i: nat, j: nat)
    requires Numbered(recs) && i < j < |recs|
    ensures recs[i].firstTxnum + recs[i].nTxs <= recs[j].firstTxnum
    decreases j
  {
    if i < j - 1 {
      RangesGrow(recs, i, j - 1);
    }
  }

  /** The first index whose range ends after `n`, by binary search. */
  method PartitionPoint(recs: seq<BlockRec>, n: TxNum) returns (k: nat)
    requires Numbered(recs)
    ensures k <= |recs|
    ensures forall i :: 0 <= i < k ==> recs[i].firstTxnum + recs[i].nTxs <= n
    ensures forall i :: k <= i < |recs| ==> n < recs[i].firstTxnum + recs[i].nTxs
  {
    var lo, hi := 0, |recs|;
    while lo < hi
      invariant 0 <= lo <= hi <= |recs|
      invariant forall i :: 0 <= i < lo ==> recs[i].firstTxnum + recs[i].nTxs <= n
      invariant forall i :: hi <= i < |recs| ==> n < recs[i].firstTxnum + recs[i].nTxs
    {
      var mid := (lo + hi) / 2;
      if recs[mid].firstTxnum + recs[mid].nTxs <= n {
        forall i | 0 <= i < mid
          ensures recs[i].firstTxnum + recs[i].nTxs <= n
        {
          RangesGrow(recs, i, mid);
        }
        lo := mid + 1;
      } else {
        forall i | mid < i < |recs|
          ensures n < recs[i].firstTxnum + recs[i].nTxs
        {
          RangesGrow(recs, mid, i);
        }
        hi := mid;
      }
    }
    k := lo;
  }

  /** The block holding `n`: the only one, or none. Empty blocks hold nothing. */
  method HeightOf(t: Table, n: TxNum) returns (h: Option<nat>)
    requires Numbered(t.recs)
    ensures h.Some? ==>
              && t.start <= h.value < t.start + |t.recs|
              && Holds(t.recs[h.value - t.start], n)
              && forall i :: 0 <= i < |t.recs| && Holds(t.recs[i], n) ==> t.start + i == h.value
    ensures h.None? ==> forall i :: 0 <= i < |t.recs| ==> !Holds(t.recs[i], n)
  {
    var i := PartitionPoint(t.recs, n);
    if i < |t.recs| && t.recs[i].firstTxnum <= n {
      forall j | i < j < |t.recs|
        ensures !Holds(t.recs[j], n)
      {
        RangesGrow(t.recs, i, j);
      }
      return Some(t.start + i);
    }
    forall j | i < j < |t.recs|
      ensures !Holds(t.recs[j], n)
    {
      RangesGrow(t.recs, i, j);
    }
    return None;
  }

  /** `from_db`: rows in ascending height order, refused when there is a gap. */
  method FromDb(rows: seq<(nat, BlockRec)>) returns (r: Result<Table, nat>)
    ensures r.Ok? <==> forall i :: 0 <= i < |rows| ==> rows[i].0 == rows[0].0 + i
    ensures r.Ok? ==> |r.value.recs| == |rows| && forall i :: 0 <= i < |rows| ==>
                                                                r.value.start + i == rows[i].0 &&
                                                                r.value.recs[i] == rows[i].1
    ensures r.Err? ==> 0 < r.error < |rows| && rows[r.error].0 != rows[0].0 + r.error &&
                       forall i :: 0 <= i < r.error ==> rows[i].0 == rows[0].0 + i
  {
    if rows == [] {
      return Ok(Table(0, []));
    }
    var recs := [];
    for i := 0 to |rows|
      invariant |recs| == i
      invariant forall j :: 0 <= j < i ==> rows[j].0 == rows[0].0 + j && recs[j] == rows[j].1
    {
      if rows[i].0 != rows[0].0 + i {
        return Err(i);
      }
      recs := recs + [rows[i].1];
    }
    r := Ok(Table(rows[0].0, recs));
  }

  class BlockTable {
    var start: nat
    var recs: seq<BlockRec>

    constructor (t: Table)
      ensures View() == t
    {
      start, recs := t.start, t.recs;
    }

    function View(): Table
      reads this
    {
      Table(start, recs)
    }

    function Get(h: nat): Option<BlockRec>
      reads this
    {
      if h < start || h - start >= |recs| then None else Some(recs[h - start])
    }

    /** One past the last numbered transaction. */
    function NextTxnum(): TxNum
      reads this
    {
      if recs == [] then 0 else Last(recs).firstTxnum + Last(recs).nTxs
    }

    /** Extend the table by one row; an empty one takes its start from it. */
    method Push(h: nat, rec: BlockRec)
      requires recs != [] ==> h == start + |recs|
      modifies this
      ensures View() == Table(if old(recs) == [] then h else old(start), old(recs) + [rec])
    {
      if recs == [] {
        start := h;
      }
      recs := recs + [rec];
    }

    method Pop() returns (top: Option<(nat, BlockRec)>)
      modifies this
      ensures old(recs) == [] ==> top == None && View() == old(View())
      ensures old(recs) != [] ==>
                top == Some((old(start) + |old(recs)| - 1, Last(old(recs)))) &&
                View() == Table(old(start), Init(old(recs)))
    {
      if recs == [] {
        return None;
      }
      top := Some((start + |recs| - 1, Last(recs)));
      recs := Init(recs);
    }
  }

  // ------------------------------------------------ the table of a chain

  lemma {:induction false} TableNumbered(chain: seq<Block>)
    ensures Numbered(TableRecs(chain))
    ensures chain != [] ==> Last(TableRecs(chain)).firstTxnum + Last(TableRecs(chain)).nTxs == TxCount(chain)
  {
    var recs := TableRecs(chain);
    forall i | 0 <= i < |recs| - 1
      ensures recs[i].firstTxnum + recs[i].nTxs == recs[i + 1].firstTxnum
    {
      assert Init(chain[..i + 1]) == chain[..i];
    }
    if chain != [] {
      assert chain[..|chain| - 1] == Init(chain);
    }
  }

  lemma {:induction false} TableSnoc(chain: seq<Block>, b: Block)
    ensures TableRecs(chain + [b]) == TableRecs(chain) + [RecOf(b, TxCount(chain))]
  {
    hide TxCount;
    var all := chain + [b];
    forall i | 0 <= i < |all|
      ensures TableRecs(all)[i] == (TableRecs(chain) + [RecOf(b, TxCount(chain))])[i]
    {
      if i < |chain| {
        assert all[..i] == chain[..i];
      } else {
        assert all[..i] == chain;
      }
    }
  }

  /** The view loop: the first of the sampled (table, snapshot) pairs whose
      tips agree, else give up. */
  method View(samples: seq<(Table, Rows)>) returns (r: Option<(Table, Rows)>)
    ensures r.Some? ==> r.value in samples && r.value.0.Tip() == r.value.1.tip
    ensures r.None? ==> forall i :: 0 <= i < |samples| && i < 1000 ==> samples[i].0.Tip() != samples[i].1.tip
  {
    for i := 0 to |samples|
      invariant forall j :: 0 <= j < i ==> samples[j].0.Tip() != samples[j].1.tip
    {
      if i == 1000 {
        return None;
      }
      if samples[i].0.Tip() == samples[i].1.tip {
        return Some(samples[i]);
      }
    }
    r := None;
  }
}
