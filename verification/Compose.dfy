/** Where the parts meet: what one module assumes, another one proves. */
module Compose {
  import opened Types
  import opened Ledger
  import opened Storage
  import opened Chain
  import Extract
  import Fetch
  import Machine
  import Render
  import Sync

  // --------------------------------------- the pipeline feeds the syncer

  /** The items a pipeline sent, as the blocks the node serves at those heights. */
  ghost function StreamOf(out: seq<Fetch.Item>, node: nat -> Block): seq<Option<Block>> {
    seq(|out|, i requires 0 <= i < |out| => if out[i].Good? then Some(node(out[i].h)) else None)
  }

  /** Under every schedule the pipeline's output is a stream the syncer accepts. */
  lemma {:induction false} PipelineStreams(run: seq<Fetch.State>, from: nat, to: nat, n: nat, i: nat,
                                           node: nat -> Block, served: iset<Block>)
    requires Fetch.Run(run, from, to, n) && i < |run| && from <= to
    requires forall h :: from <= h <= to ==> node(h).height == h && node(h) in served
    ensures Sync.Streams(StreamOf(run[i].out, node), from, to, served)
  {
    hide Fetch.Run;
    Fetch.DeliversInOrder(run, from, to, n, i);
  }

  /** A pipeline that ended by itself, with every lookup and every fetch a success,
      delivered the whole range, which is all the syncer asks of a complete stream. */
  lemma {:induction false} PipelineCompletes(run: seq<Fetch.State>, es: seq<Fetch.Event>, from: nat, to: nat, n: nat,
                                             node: nat -> Block, ask: Sync.Answers, nodeTip: nat)
    requires Fetch.Run(run, from, to, n) && Fetch.Traced(run, es, to) && from <= to <= nodeTip
    requires var s := run[|run| - 1]; !s.stop && !s.dropped && Fetch.Quiet(s, to)
    requires forall k :: 0 <= k < |es| ==> !Fetch.Failure(es[k])
    requires forall h :: from <= h <= to ==>
                           node(h).height == h && Sync.OnNode(node(h), ask, nodeTip) &&
                           (h > 0 ==> ask(0, h - 1) == Some(node(h).prev))
    ensures Sync.IsRange(StreamOf(run[|run| - 1].out, node), from, to, ask, nodeTip)
  {
    hide Fetch.Init, Fetch.Step, Fetch.Quiet, Fetch.Next, Sync.OnNode;
    Fetch.CompletesUnlessFailed(run, es, from, to, n);
    var out := run[|run| - 1].out;
    assert forall i :: 0 <= i < |out| ==> out[i] == Fetch.Good(from + i);
  }

  // -------------------------------------- extraction feeds the syncer's chain

  ghost predicate RawWithin(bs: seq<Extract.RawBlock>, raw: iset<Extract.RawBlock>) {
    forall i :: 0 <= i < |bs| ==> bs[i] in raw
  }

  ghost predicate RawLinks(bs: seq<Extract.RawBlock>, start: nat) {
    && (forall i :: 0 <= i < |bs| ==> bs[i].height == start + i)
    && (forall i :: 0 < i < |bs| ==> bs[i].prev == bs[i - 1].hash)
  }

  ghost function Extracted(raw: iset<Extract.RawBlock>, hash: Extract.Hash160): iset<Block> {
    iset b | b in raw :: Extract.ExtractBlock(b, hash)
  }

  lemma {:induction false} ExtractsAt(bs: seq<Extract.RawBlock>, hash: Extract.Hash160, i: nat)
    ensures |Extract.ExtractChain(bs, hash)| == |bs|
    ensures i < |bs| ==> Extract.ExtractChain(bs, hash)[i] == Extract.ExtractBlock(bs[i], hash)
  {
    hide Extract.ExtractBlock;
    if bs != [] {
      ExtractsAt(Init(bs), hash, i);
    }
  }

  /** Extracted blocks come from raw ones. */
  lemma {:induction false} Lift(chain: seq<Block>, raw: iset<Extract.RawBlock>, hash: Extract.Hash160)
    returns (bs: seq<Extract.RawBlock>)
    requires Sync.Within(chain, Extracted(raw, hash))
    ensures RawWithin(bs, raw) && Extract.ExtractChain(bs, hash) == chain
  {
    if chain == [] {
      bs := [];
    } else {
      var before := Lift(Init(chain), raw, hash);
      assert chain[|chain| - 1] in Extracted(raw, hash);
      var b :| b in raw && Extract.ExtractBlock(b, hash) == Last(chain);
      bs := before + [b];
      assert Init(bs) == before;
      assert chain == Init(chain) + [Last(chain)];
    }
  }

  /** Blocks whose raw chains obey consensus give the syncer the consensus it
      relies on, with nothing assumed of the rows. */
  lemma {:induction false} ExtractionIsConsensus(raw: iset<Extract.RawBlock>, hash: Extract.Hash160, start: nat)
    requires forall bs :: RawWithin(bs, raw) && RawLinks(bs, start) ==> Extract.RawValid(Extract.AllTxs(bs), hash)
    ensures Sync.Consensus(Extracted(raw, hash), start)
  {
    hide Extract.RawValid, Extract.AllTxs, Extract.ExtractChain, ValidChain, Extracted;
    forall chain: seq<Block> | Sync.Within(chain, Extracted(raw, hash)) && Links(chain, start)
      ensures ValidChain(chain)
    {
      var bs := Lift(chain, raw, hash);
      forall i | 0 <= i < |bs|
        ensures |chain| == |bs| && chain[i] == Extract.ExtractBlock(bs[i], hash)
      {
        ExtractsAt(bs, hash, i);
      }
      ExtractsAt(bs, hash, 0);
      assert RawLinks(bs, start) by {
        forall i | 0 < i < |bs|
          ensures bs[i].prev == bs[i - 1].hash
        {
          assert chain[i].prev == chain[i - 1].hash;
        }
      }
      Extract.IndexIsTheTrueUtxo(bs, hash, Coin(0, OutPoint(0, 0)));
    }
  }

  // ------------------------------------------ a rendered block holds its transaction

  ghost predicate HoldsTx(b: Block, txid: Txid) {
    exists tx :: tx in b.txs && tx.txid == txid
  }

  lemma {:induction false} FlatAt(chain: seq<Block>, i: nat, j: nat)
    requires i < |chain| && j < |chain[i].txs|
    ensures TxCount(chain[..i]) + j < |Flat(chain)|
    ensures Flat(chain)[TxCount(chain[..i]) + j] == Placed(chain[i].txs[j], chain[i].height)
  {
    if i == |chain| - 1 {
      assert chain[..i] == Init(chain);
    } else {
      FlatAt(Init(chain), i, j);
      assert Init(chain)[..i] == chain[..i];
    }
  }

  /** The table's range that holds `n` names the block with transaction `n`. */
  lemma {:induction false} HeldIsThere(t: Machine.Table, chain: seq<Block>, start: nat, n: TxNum, h: nat)
    requires Links(chain, start) && Machine.IsTable(t, chain) && Render.HeldAt(t, h, n) && n in Replay(chain).txids
    ensures start <= h < start + |chain| && chain[h - start].height == h
    ensures var b, rec := chain[h - start], t.recs[h - t.start];
            rec.firstTxnum <= n < rec.firstTxnum + |b.txs| && b.txs[n - rec.firstTxnum].txid == Replay(chain).txids[n]
  {
    hide ApplyBlocks, TxCount, Flat;
    ReplayFlat(chain);
    var i := h - start;
    assert t.recs[i] == RecOf(chain[i], TxCount(chain[..i]));
    FlatAt(chain, i, n - t.recs[i].firstTxnum);
  }

  /** A reader that paired a table and a snapshot of one run, and rendered a
      transaction from them, names the block of the snapshot's chain that holds
      it, with that block's time. */
  lemma {:induction false} RenderedFromTheChain<J>(run: seq<Machine.State>, start: nat, i: nat, j: nat,
                                                   b: Render.Bodies<J>, n: TxNum, x: Render.Rendered<J>)
    requires Machine.Run(run, start) && i < |run| && j < |run|
    requires Machine.HashesBind(run[i].publishedChain, run[j].chain)
    requires run[i].published.Tip() == Visible(run[j].disk).rows.tip
    requires Render.IsRendering(b, run[i].published, Visible(run[j].disk).rows.txids, n, x)
    ensures var chain, txids := run[j].chain, Visible(run[j].disk).rows.txids;
            && start <= x.height < start + |chain| && chain[x.height - start].height == x.height &&
               chain[x.height - start].time == x.time
            && HoldsTx(chain[x.height - start], txids[n])
            && x.body == b.of(txids[n])
  {
    hide Machine.Run, Visible, Machine.HashesBind, Replay, TxCount, ValidChain;
    var t, chain := run[i].published, run[j].chain;
    Machine.RunsReplay(run, start, j);
    Machine.PairedViewsAgree(run, start, i, j);
    HeldIsThere(t, chain, start, n, x.height);
    var rec := t.recs[x.height - t.start];
    assert chain[x.height - start].txs[n - rec.firstTxnum].txid == Replay(chain).txids[n];
    assert rec == RecOf(chain[x.height - start], TxCount(chain[..x.height - start]));
  }
}
