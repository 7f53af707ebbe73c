/** The on-disk encodings: big-endian, fixed width, so that RocksDB's bytewise
    order is numeric order. */
module Keys {
  import opened Types

  type Byte = x: int | 0 <= x < 256

  type Bytes = seq<Byte>

  function Pow256(w: nat): nat {
    if w == 0 then 1 else 256 * Pow256(w - 1)
  }

  /** `n` in `w` big-endian bytes, keeping the low ones. */
  function BE(n: nat, w: nat): (b: Bytes)
    ensures |b| == w
  {
    if w == 0 then [] else BE(n / 256, w - 1) + [n % 256]
  }

  function Num(b: Bytes): nat {
    if b == [] then 0 else Num(Init(b)) * 256 + Last(b)
  }

  lemma {:induction false} NumBE(n: nat, w: nat)
    requires n < Pow256(w)
    ensures Num(BE(n, w)) == n
  {
    if w > 0 {
      NumBE(n / 256, w - 1);
      var hi := BE(n / 256, w - 1);
      assert Init(hi + [n % 256]) == hi;
    }
  }

  lemma {:induction false} BENum(b: Bytes)
    ensures BE(Num(b), |b|) == b
    ensures Num(b) < Pow256(|b|)
  {
    if b != [] {
      BENum(Init(b));
      assert b == Init(b) + [Last(b)];
    }
  }

  lemma {:induction false} NumConcat(a: Bytes, b: Bytes)
    ensures Num(a + b) == Num(a) * Pow256(|b|) + Num(b)
    decreases |b|
  {
    if b == [] {
      assert a + b == a;
    } else {
      assert Init(a + b) == a + Init(b);
      NumConcat(a, Init(b));
      calc {
        Num(a + b);
        Num(a + Init(b)) * 256 + Last(b);
        (Num(a) * Pow256(|b| - 1) + Num(Init(b))) * 256 + Last(b);
        { assert Num(a) * Pow256(|b| - 1) * 256 == Num(a) * Pow256(|b|); }
        Num(a) * Pow256(|b|) + Num(b);
      }
    }
  }

  // -------------------------------------------------------------- byte order

  /** Bytewise comparison; a proper prefix is smaller. */
  predicate Less(a: Bytes, b: Bytes) {
    b != [] && (a == [] || a[0] < b[0] || (a[0] == b[0] && Less(a[1..], b[1..])))
  }

  lemma {:induction false} NumFirst(b: Bytes)
    requires b != []
    ensures Num(b) == b[0] * Pow256(|b| - 1) + Num(b[1..])
  {
    assert b == [b[0]] + b[1..];
    NumConcat([b[0]], b[1..]);
    assert Init([b[0]]) == [];
  }

  lemma {:induction false} NextMultiple(a: nat, b: nat, p: nat)
    requires a < b
    ensures a * p + p <= b * p
  {
    var d := b - a - 1;
    calc {
      b * p;
      (a + 1 + d) * p;
      a * p + p + d * p;
    }
  }

  lemma {:induction false} PairOrder(a: nat, x: nat, b: nat, y: nat, p: nat)
    requires x < p && y < p
    ensures a * p + x < b * p + y <==> a < b || (a == b && x < y)
  {
    if a < b {
      NextMultiple(a, b, p);
    } else if b < a {
      NextMultiple(b, a, p);
    }
  }

  /** Fixed-width byte order is numeric order. */
  lemma {:induction false} LessIsNumeric(a: Bytes, b: Bytes)
    requires |a| == |b|
    ensures Less(a, b) <==> Num(a) < Num(b)
  {
    if a != [] {
      hide Num, BE, Pow256;
      NumFirst(a);
      NumFirst(b);
      BENum(a[1..]);
      BENum(b[1..]);
      LessIsNumeric(a[1..], b[1..]);
      PairOrder(a[0], Num(a[1..]), b[0], Num(b[1..]), Pow256(|a| - 1));
    }
  }

  // --------------------------------------------------------------------- keys

  function TxnumKey(n: TxNum): Bytes { BE(n, 5) }

  function HistoryKey(t: Touch): Bytes { BE(t.program, 20) + BE(t.txnum, 5) }

  function UtxoKey(c: Coin): Bytes { BE(c.program, 20) + (BE(c.op.txid, 32) + BE(c.op.vout, 4)) }

  function HistoryTxnum(key: Bytes): TxNum
    requires |key| == 25
  {
    Num(key[20..])
  }

  function UtxoOutpoint(key: Bytes): OutPoint
    requires |key| == 56
  {
    OutPoint(Num(key[20..52]), Num(key[52..]))
  }

  ghost predicate FitsTouch(t: Touch) {
    t.program < Pow256(20) && t.txnum < Pow256(5)
  }

  ghost predicate FitsCoin(c: Coin) {
    c.program < Pow256(20) && c.op.txid < Pow256(32) && c.op.vout < Pow256(4)
  }

  /** The 40-bit txnum limit is what five bytes hold. */
  lemma {:induction false} MaxTxnum()
    ensures MAX_TXNUM + 1 == Pow256(5)
  {
    assert Pow256(1) == 256;
    assert Pow256(2) == 0x1_0000;
    assert Pow256(3) == 0x100_0000;
    assert Pow256(4) == 0x1_0000_0000;
  }

  /** History keys sort by program, then by txnum. */
  lemma {:induction false} HistoryOrder(a: Touch, b: Touch)
    requires FitsTouch(a) && FitsTouch(b)
    ensures Less(HistoryKey(a), HistoryKey(b)) <==>
            a.program < b.program || (a.program == b.program && a.txnum < b.txnum)
  {
    hide BE, Num, Less, Pow256;
    LessIsNumeric(HistoryKey(a), HistoryKey(b));
    NumConcat(BE(a.program, 20), BE(a.txnum, 5));
    NumConcat(BE(b.program, 20), BE(b.txnum, 5));
    NumBE(a.program, 20);
    NumBE(b.program, 20);
    NumBE(a.txnum, 5);
    NumBE(b.txnum, 5);
    PairOrder(a.program, a.txnum, b.program, b.txnum, Pow256(5));
  }

  lemma {:induction false} HistoryRoundTrip(t: Touch)
    requires FitsTouch(t)
    ensures |HistoryKey(t)| == 25 && HistoryTxnum(HistoryKey(t)) == t.txnum && Num(HistoryKey(t)[..20]) == t.program
  {
    hide BE, Num;
    NumBE(t.program, 20);
    NumBE(t.txnum, 5);
    assert HistoryKey(t)[20..] == BE(t.txnum, 5) && HistoryKey(t)[..20] == BE(t.program, 20);
  }

  lemma {:induction false} UtxoRoundTrip(c: Coin)
    requires FitsCoin(c)
    ensures |UtxoKey(c)| == 56 && UtxoOutpoint(UtxoKey(c)) == c.op && Num(UtxoKey(c)[..20]) == c.program
  {
    hide BE, Num, Pow256;
    NumBE(c.program, 20);
    NumBE(c.op.txid, 32);
    NumBE(c.op.vout, 4);
    var k := UtxoKey(c);
    assert k[20..52] == BE(c.op.txid, 32) && k[52..] == BE(c.op.vout, 4) && k[..20] == BE(c.program, 20);
  }

  // ------------------------------------------------------------------- values

  function EncodeVal(v: UtxoVal): Bytes { BE(v.value, 8) + BE(v.height, 4) }

  function DecodeVal(b: Bytes): Option<UtxoVal> {
    if |b| != 12 then None else Some(UtxoVal(Num(b[..8]), Num(b[8..])))
  }

  ghost predicate FitsVal(v: UtxoVal) {
    v.value < Pow256(8) && v.height < Pow256(4)
  }

  /** Decoding accepts exactly the encodings, and inverts them. */
  lemma {:induction false} ValExact(v: UtxoVal, b: Bytes)
    requires FitsVal(v)
    ensures DecodeVal(EncodeVal(v)) == Some(v)
    ensures DecodeVal(b).Some? ==> FitsVal(DecodeVal(b).value) && EncodeVal(DecodeVal(b).value) == b
    ensures DecodeVal(b).None? ==> EncodeVal(v) != b
  {
    hide BE, Num, Pow256;
    NumBE(v.value, 8);
    NumBE(v.height, 4);
    var e := EncodeVal(v);
    assert e[..8] == BE(v.value, 8) && e[8..] == BE(v.height, 4);
    if |b| == 12 {
      BENum(b[..8]);
      BENum(b[8..]);
      assert b == b[..8] + b[8..];
    }
  }

  function EncodeRec(r: BlockRec): Bytes { BE(r.hash, 32) + (BE(r.time, 4) + (BE(r.firstTxnum, 5) + BE(r.nTxs, 4))) }

  function DecodeRec(b: Bytes): Option<BlockRec> {
    if |b| != 45 then None else Some(BlockRec(Num(b[..32]), Num(b[32..36]), Num(b[36..41]), Num(b[41..])))
  }

  ghost predicate FitsRec(r: BlockRec) {
    r.hash < Pow256(32) && r.time < Pow256(4) && r.firstTxnum < Pow256(5) && r.nTxs < Pow256(4)
  }

  lemma {:induction false} RecExact(r: BlockRec, b: Bytes)
    requires FitsRec(r)
    ensures DecodeRec(EncodeRec(r)) == Some(r)
    ensures DecodeRec(b).Some? ==> FitsRec(DecodeRec(b).value) && EncodeRec(DecodeRec(b).value) == b
    ensures DecodeRec(b).None? ==> EncodeRec(r) != b
  {
    hide BE, Num, Pow256;
    NumBE(r.hash, 32);
    NumBE(r.time, 4);
    NumBE(r.firstTxnum, 5);
    NumBE(r.nTxs, 4);
    var e := EncodeRec(r);
    assert e[..32] == BE(r.hash, 32) && e[32..36] == BE(r.time, 4) && e[36..41] == BE(r.firstTxnum, 5) &&
           e[41..] == BE(r.nTxs, 4);
    if |b| == 45 {
      BENum(b[..32]);
      BENum(b[32..36]);
      BENum(b[36..41]);
      BENum(b[41..]);
      assert b == b[..32] + (b[32..36] + (b[36..41] + b[41..]));
    }
  }

  // ---------------------------------------------------------- the prefix scan

  predicate IsPrefix(p: Bytes, k: Bytes) {
    |p| <= |k| && k[..|p|] == p
  }

  /** The smallest byte string above everything that starts with `p`, if any. */
  function Above(p: Bytes): Option<Bytes> {
    if p == [] then None
    else
      var u := Above(p[1..]);
      if u.Some? then Some([p[0]] + u.value)
      else if p[0] < 255 then Some([p[0] + 1])
      else None
  }

  /** The bounds of a prefix scan admit exactly the keys with that prefix. */
  lemma {:induction false} BoundsAdmitPrefix(p: Bytes, k: Bytes)
    ensures !Less(k, p) && (Above(p).Some? ==> Less(k, Above(p).value)) <==> IsPrefix(p, k)
  {
    if p != [] && k != [] && k[0] == p[0] {
      BoundsAdmitPrefix(p[1..], k[1..]);
      assert IsPrefix(p, k) <==> IsPrefix(p[1..], k[1..]) by {
        if IsPrefix(p, k) {
          assert k[1..][..|p| - 1] == k[..|p|][1..] == p[1..];
        }
        if IsPrefix(p[1..], k[1..]) {
          assert k[..|p|] == [k[0]] + k[1..][..|p| - 1];
          assert p == [p[0]] + p[1..];
        }
      }
      var u := Above(p[1..]);
      if u.Some? {
        assert ([p[0]] + u.value)[1..] == u.value;
      }
    }
  }

  lemma {:induction false} AboveAt(p: Bytes, i: nat)
    requires i < |p| && p[i] != 255
    requires forall j :: i < j < |p| ==> p[j] == 255
    ensures Above(p) == Some(p[..i] + [p[i] + 1])
  {
    if i == 0 {
      AboveNone(p[1..]);
      assert p[..0] + [p[0] + 1] == [p[0] + 1];
    } else {
      AboveAt(p[1..], i - 1);
      assert [p[0]] + (p[1..][..i - 1] + [p[i] + 1]) == p[..i] + [p[i] + 1];
    }
  }

  lemma {:induction false} AboveNone(p: Bytes)
    requires forall j :: 0 <= j < |p| ==> p[j] == 255
    ensures Above(p) == None
  {
    if p != [] {
      AboveNone(p[1..]);
    }
  }

  /** The exclusive upper bound: bump the last byte below 0xff and cut there. */
  method UpperBound(p: Bytes) returns (upper: Option<Bytes>)
    ensures upper == Above(p)
    ensures forall k: Bytes :: !Less(k, p) && (upper.Some? ==> Less(k, upper.value)) <==> IsPrefix(p, k)
  {
    forall k: Bytes
      ensures !Less(k, p) && (Above(p).Some? ==> Less(k, Above(p).value)) <==> IsPrefix(p, k)
    {
      BoundsAdmitPrefix(p, k);
    }
    var i := |p|;
    while i > 0
      invariant 0 <= i <= |p|
      invariant forall j :: i <= j < |p| ==> p[j] == 255
    {
      i := i - 1;
      if p[i] != 255 {
        AboveAt(p, i);
        return Some(p[..i] + [p[i] + 1]);
      }
    }
    AboveNone(p);
    upper := None;
  }
}
