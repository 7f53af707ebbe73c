/** Rendering confirmed transactions through a cache of txid-prefixed rows. */
module Render {
  import opened Types
  import opened Keys
  import opened Newest
  import opened ChainState
  import opened Machine

  /** How a body is written and read back, and the body a txid determines. */
  datatype Bodies<!J> = Bodies(show: J -> Bytes, parse: Bytes -> Option<J>, of: Txid -> J)

  ghost predicate RoundTrips<J(!new)>(b: Bodies<J>) {
    forall x :: b.parse(b.show(x)) == Some(x)
  }

  /** A node's answer for a txid is that transaction's body. */
  ghost predicate Honest<J>(b: Bodies<J>, fetch: (Txid, BlockHash) -> Option<J>) {
    forall id, block :: fetch(id, block).Some? ==> fetch(id, block).value == b.of(id)
  }

  function RowOf<J>(b: Bodies<J>, id: Txid, body: J): Bytes { BE(id, 32) + b.show(body) }

  /** The body a cached row holds for `id`, if it is a row of `id`. */
  function Cached<J>(b: Bodies<J>, row: Bytes, id: Txid): Option<J> {
    if |row| < 32 || row[..32] != BE(id, 32) then None else b.parse(row[32..])
  }

  /** All that is ever known of `render`: a row that names a txid and parses
      holds that transaction's body. Its txnum may be anyone's. */
  ghost predicate Consistent<J>(b: Bodies<J>, render: map<TxNum, Bytes>) {
    forall n, id: Txid :: n in render && id < Pow256(32) && Cached(b, render[n], id).Some? ==>
                            Cached(b, render[n], id).value == b.of(id)
  }

  datatype Rendered<J> = Rendered(body: J, height: nat, time: nat)

  datatype RenderError = NoTxid(n: TxNum) | NoBlock(n: TxNum) | Node

  lemma {:induction false} RowIsCached<J(!new)>(b: Bodies<J>, id: Txid, other: Txid, body: J)
    requires RoundTrips(b) && id < Pow256(32) && other < Pow256(32)
    ensures Cached(b, RowOf(b, id, body), other) == if id == other then Some(body) else None
  {
    hide BE, Num, Pow256;
    var row := RowOf(b, id, body);
    assert row[..32] == BE(id, 32) && row[32..] == b.show(body);
    NumBE(id, 32);
    NumBE(other, 32);
  }

  // ----------------------------------------------------------------- trimming

  ghost predicate Ascending(a: seq<nat>) {
    forall i, j :: 0 <= i < j < |a| ==> a[i] < a[j]
  }

  lemma {:induction false} AscendingLast(a: seq<nat>)
    requires Ascending(a) && a != []
    ensures ToSet(a) != {} && Max(ToSet(a)) == Last(a) && ToSet(a) - {Last(a)} == ToSet(Init(a))
  {
    assert a == Init(a) + [Last(a)];
    assert Last(a) in ToSet(a);
    assert Max(ToSet(a)) == Last(a);
  }

  lemma {:induction false} ToSetConcat(a: seq<nat>, b: seq<nat>)
    ensures ToSet(a + b) == ToSet(a) + ToSet(b)
  {
  }

  lemma {:induction false} SuffixIsNewest(a: seq<nat>, k: nat)
    requires Ascending(a) && k <= |a|
    ensures ToSet(Newest.Newest(ToSet(a), k)) == ToSet(a[|a| - k..])
    decreases k
  {
    hide Newest.Newest;
    NewestNone(ToSet(a), k);
    if k > 0 {
      AscendingLast(a);
      NewestStep(ToSet(a), k);
      SuffixIsNewest(Init(a), k - 1);
      assert a[|a| - k..] == Init(a)[|a| - k..] + [Last(a)];
      ToSetConcat(Init(a)[|a| - k..], [Last(a)]);
      ToSetConcat([Last(a)], Newest.Newest(ToSet(Init(a)), k - 1));
    }
  }

  /** The keys in the order a forward iterator visits them. */
  method KeysInOrder(keys: set<TxNum>) returns (a: seq<TxNum>)
    ensures Ascending(a) && ToSet(a) == keys && |a| == |keys|
  {
    a := [];
    var rest := keys;
    while rest != {}
      invariant rest <= keys && Ascending(a) && ToSet(a) == keys - rest && |a| + |rest| == |keys|
      invariant forall x, y :: x in rest && y in a ==> x < y
      decreases rest
    {
      MaxExists(rest);
      var m :| m in rest && forall y :: y in rest ==> y <= m;
      assert |rest - {m}| == |rest| - 1;
      assert forall y :: y in rest - {m} ==> y < m;
      forall j | 0 <= j < |a|
        ensures m < a[j]
      {
        assert a[j] in a;
      }
      ToSetConcat([m], a);
      a := [m] + a;
      rest := rest - {m};
    }
  }

  lemma {:induction false} KeptFrom(a: seq<nat>, i: nat, n: nat)
    requires Ascending(a) && i < |a| && n in a
    ensures n >= a[i] <==> n in a[i..]
  {
    var j :| 0 <= j < |a| && a[j] == n;
    if i <= j {
      assert a[i..][j - i] == n;
    }
    if n in a[i..] {
      var l :| 0 <= l < |a[i..]| && a[i..][l] == n;
      assert a[i + l] == n;
    }
  }

  /** The row is in, the counter is one up, and past the cap the newest half stays. */
  ghost predicate PutThenTrimmed(was: map<TxNum, Bytes>, wasRows: nat, n: TxNum, row: Bytes, max: nat,
                                 now: map<TxNum, Bytes>, rows: nat) {
    var put, keep := was[n := row], max / 2;
    if wasRows < max then rows == wasRows + 1 && now == put
    else
      && rows == (if |put| < keep then |put| else keep)
      && (0 < keep < |put| ==> now.Keys == ToSet(Newest.Newest(put.Keys, keep)))
      && (keep == 0 || |put| <= keep ==> now == put)
  }

  class Renderer<!J(!new)> {
    const bodies: Bodies<J>
    const max: nat
    var render: map<TxNum, Bytes>
    var rows: nat

    constructor (bodies: Bodies<J>, max: nat, render: map<TxNum, Bytes>, rows: nat)
      ensures this.bodies == bodies && this.max == max && this.render == render && this.rows == rows
    {
      this.bodies, this.max, this.render, this.rows := bodies, max, render, rows;
    }

    ghost predicate Valid()
      reads this
    {
      RoundTrips(bodies) && Consistent(bodies, render)
    }

    /** `trim_render`: past half the cap only the newest half stays, and the
        counter becomes exact. A cap below two keeps nothing, finds no first
        kept row and so deletes nothing. */
    method TrimRender()
      modifies this
      ensures var keep := max / 2;
              && (keep == 0 || |old(render)| <= keep ==> render == old(render))
              && (0 < keep < |old(render)| ==>
                    render.Keys == ToSet(Newest.Newest(old(render).Keys, keep)) && |render| == keep)
              && (forall n :: n in render ==> n in old(render) && render[n] == old(render)[n])
              && rows == if |old(render)| < keep then |old(render)| else keep
    {
      hide Newest.Newest;
      var keep := max / 2;
      var keys := KeysInOrder(render.Keys);
      var total := |keys|;
      assert |render| == total;
      if total > keep && total - keep < total {
        var firstKept := keys[total - keep];
        ghost var was := render;
        render := map n | n in render && n >= firstKept :: render[n];
        forall n | n in was
          ensures n in render <==> n in keys[total - keep..]
        {
          assert n in ToSet(keys);
          KeptFrom(keys, total - keep, n);
        }
        SuffixIsNewest(keys, keep);
        SuffixKeys(keys, total - keep, was.Keys, render.Keys);
        assert |render.Keys| == keep;
      }
      rows := if total < keep then total else keep;
    }

    /** `render_put`: whatever the counter missed by at open, `missed`, bounds
        for good how far the cache outgrows its cap. */
    method RenderPut(n: TxNum, id: Txid, body: J, ghost missed: nat)
      requires Valid() && id < Pow256(32) && body == bodies.of(id)
      modifies this
      ensures Valid() && rows <= max
      ensures max >= 2 && |old(render)| <= old(rows) + missed ==> |render| <= rows + missed
      ensures PutThenTrimmed(old(render), old(rows), n, RowOf(bodies, id, body), max, render, rows)
      ensures forall m :: m in render ==>
                            if m == n then render[m] == RowOf(bodies, id, body) else m in old(render) &&
                                                                                     render[m] == old(render)[m]
    {
      hide Newest.Newest, RoundTrips, Consistent, Pow256, RowOf;
      PutKeeps(bodies, render, n, id);
      assert |render[n := RowOf(bodies, id, body)]| <= |render| +
                                                       1 by { GrowsByOne(render, n, RowOf(bodies, id, body)); }
      render := render[n := RowOf(bodies, id, body)];
      rows := rows + 1;
      ghost var put := render;
      if rows > max {
        TrimRender();
        ConsistentPart(bodies, put, render);
      }
    }

    /** The body of one lookup, fetched and cached if it was missed. */
    method Serve(looked: seq<Looked<J>>, i: nat, fetch: (Txid, BlockHash) -> Option<J>, ghost missed: nat,
                 ghost before: map<TxNum, Bytes>)
      returns (body: Option<J>)
      requires i < |looked| && Valid() && Honest(bodies, fetch) && looked[i].txid < Pow256(32)
      requires looked[i].cached.Some? ==> looked[i].cached.value == bodies.of(looked[i].txid)
      requires Written(bodies, before, render, looked)
      modifies this
      ensures Valid() && rows <= (if old(rows) < max then max else old(rows))
      ensures max >= 2 && |old(render)| <= old(rows) + missed ==> |render| <= rows + missed
      ensures body.Some? <==> looked[i].cached.Some? || fetch(looked[i].txid, looked[i].hash).Some?
      ensures body.Some? ==> body.value == bodies.of(looked[i].txid)
      ensures Written(bodies, before, render, looked)
    {
      hide Consistent, RoundTrips, Pow256, RowOf, Written, Honest, PutThenTrimmed;
      var l := looked[i];
      body := l.cached;
      if body.None? {
        HonestAt(bodies, fetch, l.txid, l.hash);
        body := fetch(l.txid, l.hash);
        if body.Some? {
          ghost var was := render;
          RenderPut(l.n, l.txid, body.value, missed);
          OneWritten(bodies, before, was, render, looked, i);
        }
      }
    }

    /** Fetch and cache what the lookup missed, in order. */
    method Fill(looked: seq<Looked<J>>, fetch: (Txid, BlockHash) -> Option<J>, ghost missed: nat)
      returns (r: Result<seq<Rendered<J>>, RenderError>)
      requires Valid() && Honest(bodies, fetch)
      requires forall i :: 0 <= i < |looked| ==>
                             looked[i].txid < Pow256(32) &&
                             (looked[i].cached.Some? ==> looked[i].cached.value == bodies.of(looked[i].txid))
      modifies this
      ensures Valid() && rows <= (if old(rows) < max then max else old(rows))
      ensures max >= 2 && |old(render)| <= old(rows) + missed ==> |render| <= rows + missed
      ensures r.Ok? <==> forall i :: 0 <= i < |looked| ==>
                                       looked[i].cached.Some? || fetch(looked[i].txid, looked[i].hash).Some?
      ensures r.Ok? ==> |r.value| == |looked| && forall i :: 0 <= i < |looked| ==>
                                                               r.value[i] == Rendered(bodies.of(looked[i].txid),
                                                                                      looked[i].height, looked[i].time)
      ensures r.Err? ==> r.error == Node
      ensures Written(bodies, old(render), render, looked)
    {
      hide Consistent, RoundTrips, Pow256, RowOf, Written, Honest, PutThenTrimmed;
      NoneWritten(bodies, render, looked);
      var out: seq<Rendered<J>> := [];
      for i := 0 to |looked|
        invariant Valid() && rows <= (if old(rows) < max then max else old(rows))
        invariant max >= 2 && |old(render)| <= old(rows) + missed ==> |render| <= rows + missed
        invariant |out| == i
        invariant forall j :: 0 <= j < i ==>
                                out[j] == Rendered(bodies.of(looked[j].txid), looked[j].height, looked[j].time)
        invariant forall j :: 0 <= j < i ==> looked[j].cached.Some? || fetch(looked[j].txid, looked[j].hash).Some?
        invariant Written(bodies, old(render), render, looked)
      {
        var l := looked[i];
        var body := Serve(looked, i, fetch, missed, old(render));
        if body.None? {
          return Err(Node);
        }
        out := out + [Rendered(body.value, l.height, l.time)];
      }
      r := Ok(out);
    }

    /** `confirmed`: for each txnum, the body of the view's own txid, with the
        status of the one block whose range holds it, whatever the cache holds.
        One transaction that cannot be served and nothing is. */
    method Confirmed(t: Table, txids: map<TxNum, Txid>, snap: map<TxNum, Bytes>, ns: seq<TxNum>,
                     fetch: (Txid, BlockHash) -> Option<J>, ghost missed: nat)
      returns (r: Result<seq<Rendered<J>>, RenderError>)
      requires Valid() && Consistent(bodies, snap) && Honest(bodies, fetch)
      requires Numbered(t.recs) && (forall n :: n in txids ==> txids[n] < Pow256(32))
      modifies this
      ensures Valid() && rows <= (if old(rows) < max then max else old(rows))
      ensures max >= 2 && |old(render)| <= old(rows) + missed ==> |render| <= rows + missed
      ensures r.Ok? ==> |r.value| == |ns| && forall i :: 0 <= i < |ns| ==>
                                                           IsRendering(bodies, t, txids, ns[i], r.value[i])
      ensures r.Ok? <==> forall i :: 0 <= i < |ns| ==> Servable(bodies, t, txids, snap, fetch, ns[i])
      ensures r.Err? ==> Blames(t, txids, ns, r.error)
      ensures WrittenFor(bodies, old(render), render, txids, ns)
    {
      hide Consistent, RoundTrips, Pow256, Numbered, RowOf, Honest, IsLooked, IsRendering, Servable, Known, Written,
        WrittenFor;
      var looked := LookUp(bodies, t, txids, snap, ns);
      if looked.Err? {
        Unserved(bodies, t, txids, snap, fetch, ns);
        NothingWritten(bodies, render, txids, ns);
        return Err(looked.error);
      }
      CachedIsBody(bodies, t, txids, snap, ns, looked.value);
      r := Fill(looked.value, fetch, missed);
      Served(bodies, t, txids, snap, fetch, ns, looked.value);
      WrittenUnder(bodies, t, txids, snap, ns, looked.value, old(render), render);
      if r.Ok? {
        RenderedRight(bodies, t, txids, snap, ns, looked.value, r.value);
      }
    }
  }

  datatype Looked<J> = Looked(n: TxNum, txid: Txid, hash: BlockHash, height: nat, time: nat, cached: Option<J>)

  /** Block `h`, and no other, holds `n`. */
  ghost predicate HeldAt(t: Table, h: nat, n: TxNum) {
    && t.start <= h < t.start + |t.recs|
    && Holds(t.recs[h - t.start], n)
    && forall i :: 0 <= i < |t.recs| && Holds(t.recs[i], n) ==> t.start + i == h
  }

  ghost predicate Known(t: Table, txids: map<TxNum, Txid>, n: TxNum) {
    n in txids && exists h: nat :: HeldAt(t, h, n)
  }

  /** An error names a txnum the view lacks, or the node when it lacks none. */
  ghost predicate Blames(t: Table, txids: map<TxNum, Txid>, ns: seq<TxNum>, e: RenderError) {
    match e
    case NoTxid(n) => n in ns && n !in txids
    case NoBlock(n) => n in ns && n in txids && !Known(t, txids, n)
    case Node => forall i :: 0 <= i < |ns| ==> Known(t, txids, ns[i])
  }

  function FromCache<J>(b: Bodies<J>, snap: map<TxNum, Bytes>, n: TxNum, id: Txid): Option<J> {
    if n in snap then Cached(b, snap[n], id) else None
  }

  ghost predicate IsLooked<J>(b: Bodies<J>, t: Table, txids: map<TxNum, Txid>, snap: map<TxNum, Bytes>, n: TxNum,
                              l: Looked<J>) {
    && l.n == n && n in txids && l.txid == txids[n]
    && HeldAt(t, l.height, n)
    && l.hash == t.recs[l.height - t.start].hash && l.time == t.recs[l.height - t.start].time
    && l.cached == FromCache(b, snap, n, l.txid)
  }

  ghost predicate IsRendering<J>(b: Bodies<J>, t: Table, txids: map<TxNum, Txid>, n: TxNum, x: Rendered<J>) {
    && n in txids && x.body == b.of(txids[n])
    && HeldAt(t, x.height, n) && x.time == t.recs[x.height - t.start].time
  }

  /** The view knows `n`, and its body is cached or the node has it in the block that holds `n`. */
  ghost predicate Servable<J>(b: Bodies<J>, t: Table, txids: map<TxNum, Txid>, snap: map<TxNum, Bytes>,
                              fetch: (Txid, BlockHash) -> Option<J>, n: TxNum) {
    && n in txids
    && exists h: nat :: HeldAt(t, h, n) &&
                        (FromCache(b, snap, n, txids[n]).Some? || fetch(txids[n], t.recs[h - t.start].hash).Some?)
  }

  /** Every row is an old one, or a requested transaction's under its own txnum. */
  ghost predicate WrittenFor<J>(b: Bodies<J>, was: map<TxNum, Bytes>, now: map<TxNum, Bytes>, txids: map<TxNum, Txid>,
                                ns: seq<TxNum>) {
    forall m :: m in now ==>
                  (m in was && now[m] == was[m]) ||
                  (m in ns && m in txids && now[m] == RowOf(b, txids[m], b.of(txids[m])))
  }

  lemma {:induction false} NothingWritten<J>(b: Bodies<J>, render: map<TxNum, Bytes>, txids: map<TxNum, Txid>,
                                             ns: seq<TxNum>)
    ensures WrittenFor(b, render, render, txids, ns)
  {
  }

  lemma {:induction false} Unserved<J>(b: Bodies<J>, t: Table, txids: map<TxNum, Txid>, snap: map<TxNum, Bytes>,
                                       fetch: (Txid, BlockHash) -> Option<J>, ns: seq<TxNum>)
    requires exists i :: 0 <= i < |ns| && !Known(t, txids, ns[i])
    ensures !forall i :: 0 <= i < |ns| ==> Servable(b, t, txids, snap, fetch, ns[i])
  {
    var i :| 0 <= i < |ns| && !Known(t, txids, ns[i]);
    assert !Servable(b, t, txids, snap, fetch, ns[i]);
  }

  lemma {:induction false} Served<J>(b: Bodies<J>, t: Table, txids: map<TxNum, Txid>, snap: map<TxNum, Bytes>,
                                     fetch: (Txid, BlockHash) -> Option<J>, ns: seq<TxNum>, looked: seq<Looked<J>>)
    requires |looked| == |ns| && forall i :: 0 <= i < |ns| ==> IsLooked(b, t, txids, snap, ns[i], looked[i])
    ensures (forall i :: 0 <= i < |looked| ==>
                           looked[i].cached.Some? || fetch(looked[i].txid, looked[i].hash).Some?) <==>
            forall i :: 0 <= i < |ns| ==> Servable(b, t, txids, snap, fetch, ns[i])
    ensures Blames(t, txids, ns, Node)
  {
    hide FromCache;
    forall i | 0 <= i < |ns|
      ensures Known(t, txids, ns[i])
      ensures Servable(b, t, txids, snap, fetch, ns[i]) <==>
              looked[i].cached.Some? || fetch(looked[i].txid, looked[i].hash).Some?
    {
      assert IsLooked(b, t, txids, snap, ns[i], looked[i]);
      assert HeldAt(t, looked[i].height, ns[i]);
    }
  }

  lemma {:induction false} WrittenUnder<J>(b: Bodies<J>, t: Table, txids: map<TxNum, Txid>, snap: map<TxNum, Bytes>,
                                           ns: seq<TxNum>, looked: seq<Looked<J>>,
                                           was: map<TxNum, Bytes>, now: map<TxNum, Bytes>)
    requires |looked| == |ns| && forall i :: 0 <= i < |ns| ==> IsLooked(b, t, txids, snap, ns[i], looked[i])
    requires Written(b, was, now, looked)
    ensures WrittenFor(b, was, now, txids, ns)
  {
    hide FromCache, RowOf, HeldAt;
    forall m | m in now && !(m in was && now[m] == was[m])
      ensures m in ns && m in txids && now[m] == RowOf(b, txids[m], b.of(txids[m]))
    {
      var l :| l in looked && l.n == m && now[m] == RowOf(b, l.txid, b.of(l.txid));
      var i :| 0 <= i < |looked| && looked[i] == l;
      assert IsLooked(b, t, txids, snap, ns[i], looked[i]);
    }
  }

  lemma {:induction false} RenderedRight<J>(b: Bodies<J>, t: Table, txids: map<TxNum, Txid>, snap: map<TxNum, Bytes>,
                                            ns: seq<TxNum>, looked: seq<Looked<J>>, out: seq<Rendered<J>>)
    requires |looked| == |ns| == |out| && forall i :: 0 <= i < |ns| ==> IsLooked(b, t, txids, snap, ns[i], looked[i])
    requires forall i :: 0 <= i < |looked| ==>
                           out[i] == Rendered(b.of(looked[i].txid), looked[i].height, looked[i].time)
    ensures forall i :: 0 <= i < |ns| ==> IsRendering(b, t, txids, ns[i], out[i])
  {
    hide FromCache, HeldAt;
    forall i | 0 <= i < |ns|
      ensures IsRendering(b, t, txids, ns[i], out[i])
    {
      assert IsLooked(b, t, txids, snap, ns[i], looked[i]);
    }
  }

  /** New rows are those of looked-up transactions, under their own txnums. */
  ghost predicate Written<J>(b: Bodies<J>, was: map<TxNum, Bytes>, now: map<TxNum, Bytes>, looked: seq<Looked<J>>) {
    forall m :: m in now ==>
                  (m in was && now[m] == was[m]) || exists l :: l in looked && l.n == m &&
                                                                now[m] == RowOf(b, l.txid, b.of(l.txid))
  }

  lemma {:induction false} HonestAt<J>(b: Bodies<J>, fetch: (Txid, BlockHash) -> Option<J>, id: Txid, block: BlockHash)
    requires Honest(b, fetch)
    ensures fetch(id, block).Some? ==> fetch(id, block).value == b.of(id)
  {
  }

  lemma {:induction false} NoneWritten<J>(b: Bodies<J>, render: map<TxNum, Bytes>, looked: seq<Looked<J>>)
    ensures Written(b, render, render, looked)
  {
  }

  lemma {:induction false} OneWritten<J>(b: Bodies<J>, was: map<TxNum, Bytes>, mid: map<TxNum, Bytes>,
                                         now: map<TxNum, Bytes>, looked: seq<Looked<J>>, i: nat)
    requires Written(b, was, mid, looked) && i < |looked|
    requires forall m :: m in now ==>
                           if m == looked[i].n then now[m] == RowOf(b, looked[i].txid, b.of(looked[i].txid))
                           else m in mid && now[m] == mid[m]
    ensures Written(b, was, now, looked)
  {
    hide RowOf;
    assert looked[i] in looked;
  }

  method LookUp<J(!new)>(b: Bodies<J>, t: Table, txids: map<TxNum, Txid>, snap: map<TxNum, Bytes>, ns: seq<TxNum>)
    returns (r: Result<seq<Looked<J>>, RenderError>)
    requires Numbered(t.recs)
    ensures r.Ok? ==> |r.value| == |ns| && forall i :: 0 <= i < |ns| ==> IsLooked(b, t, txids, snap, ns[i], r.value[i])
    ensures r.Err? ==> !r.error.Node? && Blames(t, txids, ns, r.error) && exists i :: 0 <= i < |ns| &&
                                                                                      !Known(t, txids, ns[i])
  {
    hide Numbered, Cached;
    var out: seq<Looked<J>> := [];
    for i := 0 to |ns|
      invariant |out| == i && forall j :: 0 <= j < i ==> IsLooked(b, t, txids, snap, ns[j], out[j])
    {
      var n := ns[i];
      if n !in txids {
        return Err(NoTxid(n));
      }
      var h := HeightOf(t, n);
      if h.None? {
        return Err(NoBlock(n));
      }
      var rec := t.recs[h.value - t.start];
      out := out + [Looked(n, txids[n], rec.hash, h.value, rec.time, FromCache(b, snap, n, txids[n]))];
    }
    r := Ok(out);
  }

  lemma {:induction false} CachedIsBody<J>(b: Bodies<J>, t: Table, txids: map<TxNum, Txid>, snap: map<TxNum, Bytes>,
                                           ns: seq<TxNum>, looked: seq<Looked<J>>)
    requires Consistent(b, snap) && |looked| == |ns|
    requires forall i :: 0 <= i < |ns| ==> IsLooked(b, t, txids, snap, ns[i], looked[i])
    requires forall n :: n in txids ==> txids[n] < Pow256(32)
    ensures forall i :: 0 <= i < |looked| ==>
                          looked[i].txid < Pow256(32) &&
                          (looked[i].cached.Some? ==> looked[i].cached.value == b.of(looked[i].txid))
  {
    hide Cached, Pow256;
    forall i | 0 <= i < |looked|
      ensures looked[i].txid < Pow256(32) && (looked[i].cached.Some? ==> looked[i].cached.value == b.of(looked[i].txid))
    {
      assert IsLooked(b, t, txids, snap, ns[i], looked[i]);
    }
  }

  // ------------------------------------------------------ what a put preserves

  lemma {:induction false} PutKeeps<J(!new)>(b: Bodies<J>, render: map<TxNum, Bytes>, n: TxNum, id: Txid)
    requires RoundTrips(b) && Consistent(b, render) && id < Pow256(32)
    ensures Consistent(b, render[n := RowOf(b, id, b.of(id))])
  {
    hide BE, Num, Pow256, Cached, RowOf;
    var row := RowOf(b, id, b.of(id));
    forall other: Txid | other < Pow256(32) && Cached(b, row, other).Some?
      ensures Cached(b, row, other).value == b.of(other)
    {
      RowIsCached(b, id, other, b.of(id));
    }
  }

  lemma {:induction false} GrowsByOne(m: map<TxNum, Bytes>, n: TxNum, row: Bytes)
    ensures |m[n := row]| <= |m| + 1
  {
    assert m[n := row].Keys == m.Keys + {n};
    assert n in m ==> m.Keys + {n} == m.Keys;
  }

  lemma {:induction false} ConsistentPart<J>(b: Bodies<J>, was: map<TxNum, Bytes>, now: map<TxNum, Bytes>)
    requires Consistent(b, was) && forall n :: n in now ==> n in was && now[n] == was[n]
    ensures Consistent(b, now)
  {
    hide Cached;
  }

  lemma {:induction false} SuffixKeys(keys: seq<TxNum>, i: nat, was: set<TxNum>, now: set<TxNum>)
    requires i <= |keys| && Ascending(keys) && ToSet(keys) == was && now <= was
    requires forall n :: n in was ==> (n in now <==> n in keys[i..])
    ensures now == ToSet(keys[i..]) && |now| == |keys| - i
  {
    forall n | n in keys[i..]
      ensures n in now
    {
      assert n in keys;
      assert n in ToSet(keys);
    }
    assert now == ToSet(keys[i..]);
    AscendingSize(keys[i..]);
  }

  lemma {:induction false} AscendingSize(a: seq<nat>)
    requires Ascending(a)
    ensures |ToSet(a)| == |a|
  {
    if a != [] {
      AscendingSize(Init(a));
      assert a == Init(a) + [Last(a)];
      assert ToSet(a) == ToSet(Init(a)) + {Last(a)};
    }
  }
}
