/** The byte form of an undo record: a header and three counted sections. */
module UndoCodec {
  import opened Types
  import opened Keys
  import Storage

  datatype Deleted = Deleted(key: Bytes, val: UtxoVal)

  datatype RawUndo = RawUndo(firstTxnum: TxNum, nTxs: nat, addedHistory: seq<Bytes>, addedUtxo: seq<Bytes>,
                             deletedUtxo: seq<Deleted>)

  datatype UndoError = Truncated | Trailing(bytes: nat)

  function Flat(items: seq<Bytes>): Bytes {
    if items == [] then [] else Flat(Init(items)) + Last(items)
  }

  ghost predicate Wide(items: seq<Bytes>, w: nat) {
    forall i :: 0 <= i < |items| ==> |items[i]| == w
  }

  /** A section: its count in four bytes, then its items. */
  function Section(items: seq<Bytes>): Bytes { BE(|items|, 4) + Flat(items) }

  function DeletedBytes(d: Deleted): Bytes { d.key + EncodeVal(d.val) }

  function DeletedItems(ds: seq<Deleted>): seq<Bytes> { seq(|ds|, i requires 0 <= i < |ds| => DeletedBytes(ds[i])) }

  function Header(firstTxnum: TxNum, nTxs: nat): Bytes { TxnumKey(firstTxnum) + BE(nTxs, 4) }

  function Encode(u: RawUndo): Bytes {
    Header(u.firstTxnum, u.nTxs) +
    (Section(u.addedHistory) + (Section(u.addedUtxo) + Section(DeletedItems(u.deletedUtxo))))
  }

  ghost predicate ValidDeleted(d: Deleted) {
    |d.key| == 56 && FitsVal(d.val)
  }

  /** The widths the Rust types give the fields, and counts that fit a `u32`. */
  ghost predicate ValidUndo(u: RawUndo) {
    && u.firstTxnum < Pow256(5) && u.nTxs < Pow256(4)
    && Wide(u.addedHistory, 25) && |u.addedHistory| < Pow256(4)
    && Wide(u.addedUtxo, 56) && |u.addedUtxo| < Pow256(4)
    && (forall i :: 0 <= i < |u.deletedUtxo| ==> ValidDeleted(u.deletedUtxo[i])) && |u.deletedUtxo| < Pow256(4)
  }

  lemma {:induction false} FlatLength(items: seq<Bytes>, w: nat)
    requires Wide(items, w)
    ensures |Flat(items)| == |items| * w
  {
    if items != [] {
      FlatLength(Init(items), w);
      assert |items| * w == (|items| - 1) * w + w;
    }
  }

  lemma {:induction false} FlatInjective(a: seq<Bytes>, b: seq<Bytes>, w: nat)
    requires Wide(a, w) && Wide(b, w) && |a| == |b|
    requires Flat(a) == Flat(b)
    ensures a == b
  {
    if a != [] {
      FlatLength(Init(a), w);
      FlatLength(Init(b), w);
      assert Flat(Init(a)) == Flat(a)[..|Flat(Init(a))|] == Flat(Init(b));
      assert Last(a) == Flat(a)[|Flat(Init(a))|..] == Last(b);
      FlatInjective(Init(a), Init(b), w);
      assert a == Init(a) + [Last(a)] && b == Init(b) + [Last(b)];
    }
  }

  lemma {:induction false} SectionCount(items: seq<Bytes>, rest: Bytes, w: nat)
    requires Wide(items, w) && |items| < Pow256(4)
    ensures |Section(items)| == 4 + |items| * w
    ensures Num((Section(items) + rest)[..4]) == |items|
  {
    hide Flat, Num, BE, Pow256;
    FlatLength(items, w);
    NumBE(|items|, 4);
    assert (Section(items) + rest)[..4] == BE(|items|, 4);
  }

  /** A section is self-delimiting. */
  lemma {:induction false} SectionUnique(a: seq<Bytes>, s: Bytes, b: seq<Bytes>, t: Bytes, w: nat)
    requires Wide(a, w) && Wide(b, w) && |a| < Pow256(4) && |b| < Pow256(4)
    requires Section(a) + s == Section(b) + t
    ensures a == b && s == t
  {
    hide Flat, Num, BE, Pow256;
    SectionCount(a, s, w);
    SectionCount(b, t, w);
    var n := |Section(a)|;
    assert Section(a) == (Section(a) + s)[..n] == Section(b);
    assert s == (Section(a) + s)[n..] == t;
    assert Flat(a) == Section(a)[4..] == Flat(b);
    FlatInjective(a, b, w);
  }

  lemma {:induction false} DeletedInjective(a: seq<Deleted>, b: seq<Deleted>)
    requires forall i :: 0 <= i < |a| ==> ValidDeleted(a[i])
    requires forall i :: 0 <= i < |b| ==> ValidDeleted(b[i])
    requires DeletedItems(a) == DeletedItems(b)
    ensures a == b
  {
    hide BE, Num, Pow256, EncodeVal, DecodeVal;
    assert |a| == |DeletedItems(a)| == |DeletedItems(b)| == |b|;
    forall i | 0 <= i < |a|
      ensures a[i] == b[i]
    {
      assert DeletedBytes(a[i]) == DeletedItems(a)[i] == DeletedItems(b)[i] == DeletedBytes(b[i]);
      assert a[i].key == DeletedBytes(a[i])[..56] == b[i].key;
      assert EncodeVal(a[i].val) == DeletedBytes(a[i])[56..] == EncodeVal(b[i].val);
      ValExact(a[i].val, []);
      ValExact(b[i].val, []);
    }
  }

  lemma {:induction false} DeletedWide(ds: seq<Deleted>)
    requires forall i :: 0 <= i < |ds| ==> ValidDeleted(ds[i])
    ensures Wide(DeletedItems(ds), 68)
  {
    forall i | 0 <= i < |ds|
      ensures |DeletedItems(ds)[i]| == 68
    {
      assert ValidDeleted(ds[i]);
      assert |EncodeVal(ds[i].val)| == 12;
    }
  }

  lemma {:induction false} HeaderUnique(x: TxNum, n: nat, s: Bytes, y: TxNum, m: nat, t: Bytes)
    requires x < Pow256(5) && y < Pow256(5) && n < Pow256(4) && m < Pow256(4)
    requires Header(x, n) + s == Header(y, m) + t
    ensures x == y && n == m && s == t
  {
    hide BE, Num, Pow256;
    var b := Header(x, n) + s;
    assert BE(x, 5) == b[..5] == BE(y, 5);
    assert BE(n, 4) == b[5..9] == BE(m, 4);
    assert s == b[9..] == t;
    NumBE(x, 5);
    NumBE(y, 5);
    NumBE(n, 4);
    NumBE(m, 4);
  }

  /** No encoding is a proper prefix of another, and equal bytes mean equal records. */
  lemma {:induction false} EncodeInjective(u: RawUndo, s: Bytes, v: RawUndo, t: Bytes)
    requires ValidUndo(u) && ValidUndo(v)
    requires Encode(u) + s == Encode(v) + t
    ensures u == v && s == t
  {
    hide Header, Section, DeletedItems, Pow256, Wide;
    var du, dv := DeletedItems(u.deletedUtxo), DeletedItems(v.deletedUtxo);
    var u3, v3 := Section(du) + s, Section(dv) + t;
    var u2, v2 := Section(u.addedUtxo) + u3, Section(v.addedUtxo) + v3;
    var u1, v1 := Section(u.addedHistory) + u2, Section(v.addedHistory) + v2;
    assert Encode(u) + s == Header(u.firstTxnum, u.nTxs) + u1;
    assert Encode(v) + t == Header(v.firstTxnum, v.nTxs) + v1;
    HeaderUnique(u.firstTxnum, u.nTxs, u1, v.firstTxnum, v.nTxs, v1);
    SectionUnique(u.addedHistory, u2, v.addedHistory, v2, 25);
    SectionUnique(u.addedUtxo, u3, v.addedUtxo, v3, 56);
    DeletedWide(u.deletedUtxo);
    DeletedWide(v.deletedUtxo);
    DeletedCount(u.deletedUtxo);
    DeletedCount(v.deletedUtxo);
    SectionUnique(du, s, dv, t, 68);
    DeletedInjective(u.deletedUtxo, v.deletedUtxo);
  }

  lemma {:induction false} DeletedCount(ds: seq<Deleted>)
    ensures |DeletedItems(ds)| == |ds|
  {
  }

  // ----------------------------------------------------------------- decoding

  method Take(r: Bytes, n: nat) returns (head: Option<Bytes>, rest: Bytes)
    ensures head.None? <==> |r| < n
    ensures head.Some? ==> |head.value| == n && r == head.value + rest
  {
    if |r| < n {
      return None, r;
    }
    head, rest := Some(r[..n]), r[n..];
  }

  ghost predicate StartsWithSection(r: Bytes, w: nat) {
    exists items, rest :: Wide(items, w) && |items| < Pow256(4) && r == Section(items) + rest
  }

  lemma {:induction false} TooShort(r: Bytes, done: seq<Bytes>, rest: Bytes, w: nat)
    requires |r| >= 4 && Wide(done, w) && r == r[..4] + Flat(done) + rest
    requires |done| < Num(r[..4]) && |rest| < w
    ensures !StartsWithSection(r, w)
  {
    hide Flat, Num, Pow256, Section;
    forall items, tail | Wide(items, w) && |items| < Pow256(4) && r == Section(items) + tail
      ensures false
    {
      SectionCount(items, tail, w);
      FlatLength(done, w);
      NextMultiple(|done|, |items|, w);
    }
  }

  lemma {:induction false} NoCount(r: Bytes, w: nat)
    requires |r| < 4
    ensures !StartsWithSection(r, w)
  {
    forall items, tail | Wide(items, w) && |items| < Pow256(4) && r == Section(items) + tail
      ensures false
    {
    }
  }

  lemma {:induction false} FlatSnoc(items: seq<Bytes>, x: Bytes)
    ensures Flat(items + [x]) == Flat(items) + x
  {
    assert Init(items + [x]) == items;
  }

  method TakeSection(r: Bytes, w: nat) returns (items: Option<seq<Bytes>>, rest: Bytes)
    ensures items.Some? ==> Wide(items.value, w) && |items.value| < Pow256(4) && r == Section(items.value) + rest
    ensures items.None? ==> !StartsWithSection(r, w)
  {
    hide Flat, Num, Pow256, StartsWithSection;
    var count, cur := Take(r, 4);
    if count.None? {
      NoCount(r, w);
      return None, r;
    }
    assert count.value == r[..4];
    var n := Num(count.value);
    var done: seq<Bytes> := [];
    assert Flat(done) == [] by { FlatLength(done, 0); }
    while |done| < n
      invariant |done| <= n && Wide(done, w) && r == r[..4] + Flat(done) + cur
    {
      var item, next := Take(cur, w);
      if item.None? {
        TooShort(r, done, cur, w);
        return None, r;
      }
      FlatSnoc(done, item.value);
      assert r[..4] + Flat(done) + (item.value + next) == r[..4] + (Flat(done) + item.value) + next;
      done, cur := done + [item.value], next;
    }
    BENum(r[..4]);
    items, rest := Some(done), cur;
  }

  method SplitDeleted(items: seq<Bytes>) returns (ds: seq<Deleted>)
    requires Wide(items, 68)
    ensures DeletedItems(ds) == items
    ensures forall i :: 0 <= i < |ds| ==> ValidDeleted(ds[i])
  {
    hide Num, Pow256, BE, EncodeVal;
    ds := [];
    while |ds| < |items|
      invariant |ds| <= |items|
      invariant forall i :: 0 <= i < |ds| ==> ValidDeleted(ds[i]) && DeletedBytes(ds[i]) == items[i]
    {
      var item := items[|ds|];
      var v := DecodeVal(item[56..]);
      ValExact(UtxoVal(0, 0), item[56..]) by { FitsZero(); }
      ds := ds + [Deleted(item[..56], v.value)];
    }
    assert DeletedItems(ds) == items;
  }

  lemma {:induction false} FitsZero()
    ensures FitsVal(UtxoVal(0, 0))
  {
    BENum(BE(0, 8));
    BENum(BE(0, 4));
  }

  ghost predicate NotEncoded(b: Bytes) {
    forall u :: ValidUndo(u) ==> !(Encode(u) <= b)
  }

  lemma {:induction false} Parts(u: RawUndo, t: Bytes)
    ensures |Encode(u) + t| >= 9
    ensures (Encode(u) + t)[9..] ==
            Section(u.addedHistory) + (Section(u.addedUtxo) + (Section(DeletedItems(u.deletedUtxo)) + t))
  {
    hide BE, Section, DeletedItems;
  }

  lemma {:induction false} NoHeader(b: Bytes)
    requires |b| < 9
    ensures NotEncoded(b)
  {
    forall u | ValidUndo(u) && Encode(u) <= b
      ensures false
    {
      var t := b[|Encode(u)|..];
      Parts(u, t);
    }
  }

  lemma {:induction false} NoHistory(b: Bytes)
    requires |b| >= 9 && !StartsWithSection(b[9..], 25)
    ensures NotEncoded(b)
  {
    hide Section, DeletedItems, Encode, Wide, Pow256;
    forall u | ValidUndo(u) && Encode(u) <= b
      ensures false
    {
      var t := b[|Encode(u)|..];
      Parts(u, t);
    }
  }

  lemma {:induction false} NoUtxo(b: Bytes, h: seq<Bytes>, r: Bytes)
    requires |b| >= 9 && b[9..] == Section(h) + r && Wide(h, 25) && |h| < Pow256(4)
    requires !StartsWithSection(r, 56)
    ensures NotEncoded(b)
  {
    hide Section, DeletedItems, Encode, Wide, Pow256;
    forall u | ValidUndo(u) && Encode(u) <= b
      ensures false
    {
      var t := b[|Encode(u)|..];
      Parts(u, t);
      SectionUnique(h, r, u.addedHistory, Section(u.addedUtxo) + (Section(DeletedItems(u.deletedUtxo)) + t), 25);
    }
  }

  lemma {:induction false} NoDeleted(b: Bytes, h: seq<Bytes>, x: seq<Bytes>, r: Bytes)
    requires |b| >= 9 && b[9..] == Section(h) + (Section(x) + r)
    requires Wide(h, 25) && |h| < Pow256(4) && Wide(x, 56) && |x| < Pow256(4)
    requires !StartsWithSection(r, 68)
    ensures NotEncoded(b)
  {
    hide Section, DeletedItems, Encode, Wide, Pow256;
    forall u | ValidUndo(u) && Encode(u) <= b
      ensures false
    {
      var t := b[|Encode(u)|..];
      Parts(u, t);
      var last := Section(DeletedItems(u.deletedUtxo)) + t;
      SectionUnique(h, Section(x) + r, u.addedHistory, Section(u.addedUtxo) + last, 25);
      SectionUnique(x, r, u.addedUtxo, last, 56);
      DeletedWide(u.deletedUtxo);
      DeletedCount(u.deletedUtxo);
    }
  }

  lemma {:induction false} OnlyOne(b: Bytes, u: RawUndo, t: Bytes)
    requires ValidUndo(u) && b == Encode(u) + t
    ensures forall v :: ValidUndo(v) && Encode(v) == b ==> v == u && t == []
  {
    hide ValidUndo, Encode;
    forall v | ValidUndo(v) && Encode(v) == b
      ensures v == u && t == []
    {
      assert Encode(v) + [] == b;
      EncodeInjective(v, [], u, t);
    }
  }

  /** Accepts exactly the encodings of records, tells a truncated record from
      one with bytes to spare, and returns the record encoded. */
  method Decode(b: Bytes) returns (r: Result<RawUndo, UndoError>)
    ensures r.Ok? ==> ValidUndo(r.value) && Encode(r.value) == b
    ensures r.Err? && r.error.Trailing? ==>
              exists u :: ValidUndo(u) && Encode(u) < b && |b| == |Encode(u)| + r.error.bytes
    ensures r.Err? && r.error.Truncated? ==> forall u :: ValidUndo(u) ==> !(Encode(u) <= b)
    ensures forall u :: ValidUndo(u) && Encode(u) == b ==> r == Ok(u)
  {
    hide Section, DeletedItems, Wide, Pow256, StartsWithSection, Num, BE;
    var first, r1 := Take(b, 5);
    if first.None? {
      NoHeader(b);
      return Err(Truncated);
    }
    var nTxs, r2 := Take(r1, 4);
    if nTxs.None? {
      NoHeader(b);
      return Err(Truncated);
    }
    assert r2 == b[9..];
    var history, r3 := TakeSection(r2, 25);
    if history.None? {
      NoHistory(b);
      return Err(Truncated);
    }
    var utxo, r4 := TakeSection(r3, 56);
    if utxo.None? {
      NoUtxo(b, history.value, r3);
      return Err(Truncated);
    }
    var deleted, r5 := TakeSection(r4, 68);
    if deleted.None? {
      NoDeleted(b, history.value, utxo.value, r4);
      return Err(Truncated);
    }
    var ds := SplitDeleted(deleted.value);
    DeletedCount(ds);
    BENum(first.value);
    BENum(nTxs.value);
    var u := RawUndo(Num(first.value), Num(nTxs.value), history.value, utxo.value, ds);
    assert b == Encode(u) + r5;
    OnlyOne(b, u, r5);
    if r5 != [] {
      return Err(Trailing(|r5|));
    }
    r := Ok(u);
  }

  // ----------------------------------------------------------------- encoding

  method PutItems(b: Bytes, items: seq<Bytes>) returns (r: Bytes)
    ensures r == b + Section(items)
  {
    hide BE, Flat;
    r := b + BE(|items|, 4);
    assert Flat(items[..0]) == [] by { FlatLength(items[..0], 0); }
    var i := 0;
    while i < |items|
      invariant 0 <= i <= |items|
      invariant r == b + BE(|items|, 4) + Flat(items[..i])
    {
      FlatSnoc(items[..i], items[i]);
      assert items[..i] + [items[i]] == items[..i + 1];
      r := r + items[i];
      i := i + 1;
    }
    assert items[..i] == items;
  }

  method Put(u: RawUndo) returns (b: Bytes)
    ensures b == Encode(u)
  {
    hide BE, Section, DeletedItems;
    b := TxnumKey(u.firstTxnum) + BE(u.nTxs, 4);
    b := PutItems(b, u.addedHistory);
    b := PutItems(b, u.addedUtxo);
    b := PutItems(b, DeletedItems(u.deletedUtxo));
  }

  // ------------------------------------------------- the record the rows name

  function RawDeleted(d: (Coin, UtxoVal)): Deleted { Deleted(UtxoKey(d.0), d.1) }

  function RawOf(u: Storage.Undo): RawUndo {
    RawUndo(
      u.firstTxnum,
      u.nTxs,
      seq(|u.addedHistory|, i requires 0 <= i < |u.addedHistory| => HistoryKey(u.addedHistory[i])),
      seq(|u.addedUtxo|, i requires 0 <= i < |u.addedUtxo| => UtxoKey(u.addedUtxo[i])),
      seq(|u.deletedUtxo|, i requires 0 <= i < |u.deletedUtxo| => RawDeleted(u.deletedUtxo[i])))
  }

  ghost predicate FitsUndo(u: Storage.Undo) {
    && u.firstTxnum < Pow256(5) && u.nTxs < Pow256(4)
    && |u.addedHistory| < Pow256(4) && |u.addedUtxo| < Pow256(4) && |u.deletedUtxo| < Pow256(4)
    && (forall i :: 0 <= i < |u.addedHistory| ==> FitsTouch(u.addedHistory[i]))
    && (forall i :: 0 <= i < |u.addedUtxo| ==> FitsCoin(u.addedUtxo[i]))
    && (forall i :: 0 <= i < |u.deletedUtxo| ==> FitsCoin(u.deletedUtxo[i].0) && FitsVal(u.deletedUtxo[i].1))
  }

  lemma {:induction false} RawOfValid(u: Storage.Undo)
    requires FitsUndo(u)
    ensures ValidUndo(RawOf(u))
  {
    hide BE, Num, Pow256, FitsTouch, FitsCoin, FitsVal;
  }

  lemma {:induction false} RawOfInjective(u: Storage.Undo, v: Storage.Undo)
    requires FitsUndo(u) && FitsUndo(v) && RawOf(u) == RawOf(v)
    ensures u == v
  {
    hide BE, Num, Pow256, FitsTouch, FitsCoin, FitsVal, HistoryKey, UtxoKey, UtxoOutpoint, HistoryTxnum;
    var a, b := RawOf(u), RawOf(v);
    forall i | 0 <= i < |u.addedHistory|
      ensures i < |v.addedHistory| && u.addedHistory[i] == v.addedHistory[i]
    {
      assert a.addedHistory[i] == b.addedHistory[i];
      HistoryRoundTrip(u.addedHistory[i]);
      HistoryRoundTrip(v.addedHistory[i]);
    }
    forall i | 0 <= i < |u.addedUtxo|
      ensures i < |v.addedUtxo| && u.addedUtxo[i] == v.addedUtxo[i]
    {
      assert a.addedUtxo[i] == b.addedUtxo[i];
      UtxoRoundTrip(u.addedUtxo[i]);
      UtxoRoundTrip(v.addedUtxo[i]);
    }
    forall i | 0 <= i < |u.deletedUtxo|
      ensures i < |v.deletedUtxo| && u.deletedUtxo[i] == v.deletedUtxo[i]
    {
      assert a.deletedUtxo[i] == b.deletedUtxo[i];
      UtxoRoundTrip(u.deletedUtxo[i].0);
      UtxoRoundTrip(v.deletedUtxo[i].0);
    }
    assert |a.addedHistory| == |b.addedHistory| && |a.addedUtxo| == |b.addedUtxo| && |a.deletedUtxo| == |b.deletedUtxo|;
  }

  /** The stored bytes name one undo record: nothing `Rollback` reads is lost. */
  lemma {:induction false} StoredUndoIsExact(u: Storage.Undo, v: Storage.Undo)
    requires FitsUndo(u) && FitsUndo(v)
    ensures Encode(RawOf(u)) == Encode(RawOf(v)) <==> u == v
  {
    hide Encode, RawOf, FitsUndo, ValidUndo;
    if Encode(RawOf(u)) == Encode(RawOf(v)) {
      RawOfValid(u);
      RawOfValid(v);
      EncodeInjective(RawOf(u), [], RawOf(v), []);
      RawOfInjective(u, v);
    }
  }
}
