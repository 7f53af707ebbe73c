/** Newest-first selection of txnums: the history cursor, and why a cap per
    address loses nothing overall. */
module Newest {
  import opened Types

  lemma {:induction false} MaxExists(s: set<nat>)
    requires s != {}
    ensures exists m :: m in s && forall y :: y in s ==> y <= m
    decreases s
  {
    var x :| x in s;
    var t := set y | y in s && y > x;
    if t != {} {
      assert x !in t;
      MaxExists(t);
      var m :| m in t && forall y :: y in t ==> y <= m;
      assert m in s && forall y :: y in s ==> y in t || y <= x;
    } else {
      assert forall y :: y in s ==> y !in t ==> y <= x;
    }
  }

  ghost function Max(s: set<nat>): (m: nat)
    requires s != {}
    ensures m in s && forall y :: y in s ==> y <= m
  {
    MaxExists(s);
    var m :| m in s && forall y :: y in s ==> y <= m;
    m
  }

  /** The `k` greatest members of `s`, greatest first; all of them if fewer. */
  ghost function Newest(s: set<nat>, k: nat): seq<nat> {
    if k == 0 || s == {} then [] else [Max(s)] + Newest(s - {Max(s)}, k - 1)
  }

  ghost function Newer(s: set<nat>, x: nat): set<nat> {
    set y | y in s && y > x
  }

  ghost predicate Descending(s: seq<nat>) {
    forall i, j :: 0 <= i < j < |s| ==> s[i] > s[j]
  }

  /** A member is selected iff fewer than `k` members are newer. */
  lemma {:induction false} InNewest(s: set<nat>, k: nat, x: nat)
    ensures x in Newest(s, k) <==> x in s && |Newer(s, x)| < k
    decreases k
  {
    if k > 0 && s != {} {
      var m := Max(s);
      InNewest(s - {m}, k - 1, x);
      if x == m {
        assert Newer(s, x) == {};
      } else if x in s {
        assert Newer(s, x) == Newer(s - {m}, x) + {m};
      }
    }
  }

  lemma {:induction false} NewestDescends(s: set<nat>, k: nat)
    ensures Descending(Newest(s, k)) && ToSet(Newest(s, k)) <= s
    ensures |Newest(s, k)| == if |s| < k then |s| else k
    decreases k
  {
    if k > 0 && s != {} {
      var m := Max(s);
      NewestDescends(s - {m}, k - 1);
      assert |s - {m}| == |s| - 1;
      var rest := Newest(s - {m}, k - 1);
      forall i | 0 <= i < |rest|
        ensures rest[i] in s && rest[i] < m
      {
        assert rest[i] in ToSet(rest);
      }
    }
  }

  /** Any part of `s` that holds its `k` newest has the same `k` newest. */
  lemma {:induction false} NewestOfPart(s: set<nat>, t: set<nat>, k: nat)
    requires t <= s && ToSet(Newest(s, k)) <= t
    ensures Newest(t, k) == Newest(s, k)
    decreases k
  {
    if k > 0 && s != {} {
      var m := Max(s);
      var rest := Newest(s - {m}, k - 1);
      assert Newest(s, k)[0] == m;
      assert m in ToSet(Newest(s, k));
      assert Max(t) == m;
      NewestDescends(s - {m}, k - 1);
      assert ToSet(rest) <= t - {m} by {
        forall x | x in rest
          ensures x in t - {m}
        {
          assert x in ToSet(rest) && x in ToSet(Newest(s, k));
        }
      }
      NewestOfPart(s - {m}, t - {m}, k - 1);
    }
  }

  lemma {:induction false} DescendingFirst(r: seq<nat>)
    requires Descending(r) && r != []
    ensures ToSet(r) != {} && Max(ToSet(r)) == r[0] && ToSet(r) - {r[0]} == ToSet(r[1..])
  {
    assert r[0] in ToSet(r);
    assert Max(ToSet(r)) == r[0];
    assert ToSet(r) - {r[0]} == ToSet(r[1..]) by {
      assert r == [r[0]] + r[1..];
    }
  }

  /** A descending sequence cut to `k` is the newest `k` of its elements. */
  lemma {:induction false} DescendingPrefix(r: seq<nat>, k: nat)
    requires Descending(r)
    ensures Newest(ToSet(r), k) == if |r| < k then r else r[..k]
    decreases k
  {
    hide Newest;
    NewestNone(ToSet(r), k);
    if k > 0 && r != [] {
      DescendingFirst(r);
      NewestStep(ToSet(r), k);
      DescendingPrefix(r[1..], k - 1);
      if |r| >= k {
        assert [r[0]] + r[1..][..k - 1] == r[..k];
      }
    }
  }

  // ------------------------------------------------------------ many addresses

  ghost function All(hs: seq<set<nat>>): set<nat> {
    set i, x | 0 <= i < |hs| && x in hs[i] :: x
  }

  ghost function Capped(hs: seq<set<nat>>, k: nat): set<nat> {
    set i, x | 0 <= i < |hs| && x in Newest(hs[i], k) :: x
  }

  lemma {:induction false} NewerIn(s: set<nat>, t: set<nat>, x: nat)
    requires s <= t
    ensures |Newer(s, x)| <= |Newer(t, x)|
  {
    SubsetSize(Newer(s, x), Newer(t, x));
  }

  lemma {:induction false} CappedWithin(hs: seq<set<nat>>, k: nat)
    ensures Capped(hs, k) <= All(hs)
  {
    forall x | x in Capped(hs, k)
      ensures x in All(hs)
    {
      var i :| 0 <= i < |hs| && x in Newest(hs[i], k);
      InNewest(hs[i], k, x);
    }
  }

  /** What an address's cap cut off is older than `k` of what it kept. */
  lemma {:induction false} CutOffIsOld(hs: seq<set<nat>>, k: nat, x: nat)
    requires x in All(hs) && x !in Capped(hs, k)
    ensures |Newer(Capped(hs, k), x)| >= k
  {
    var i :| 0 <= i < |hs| && x in hs[i];
    var h, kept := hs[i], Newest(hs[i], k);
    InNewest(h, k, x);
    NewestDescends(h, k);
    DistinctSize(kept);
    SubsetSize(Newer(h, x), h);
    assert ToSet(kept) <= Newer(Capped(hs, k), x) by {
      forall y | y in kept
        ensures y in Newer(Capped(hs, k), x)
      {
        InNewest(h, k, y);
        if y <= x {
          assert Newer(h, x) <= Newer(h, y);
          SubsetSize(Newer(h, x), Newer(h, y));
        }
      }
    }
    SubsetSize(ToSet(kept), Newer(Capped(hs, k), x));
  }

  lemma {:induction false} DistinctSize(s: seq<nat>)
    requires Descending(s)
    ensures |ToSet(s)| == |s|
  {
    if s != [] {
      DistinctSize(Init(s));
      assert s == Init(s) + [Last(s)];
      assert ToSet(s) == ToSet(Init(s)) + {Last(s)};
    }
  }

  /** With the transactions in `gone` left out after the caps, the newest `k`
      are the newest `k` of everything iff each txnum a cap cut off is older
      than `k` that were kept. */
  lemma {:induction false} CapExactWhen(hs: seq<set<nat>>, k: nat, gone: set<nat>)
    ensures Newest(Capped(hs, k) - gone, k) == Newest(All(hs) - gone, k) <==>
            forall x :: x in All(hs) - gone && x !in Capped(hs, k) ==> |Newer(Capped(hs, k) - gone, x)| >= k
  {
    hide Capped, All, Newer, Newest;
    var t, s := Capped(hs, k) - gone, All(hs) - gone;
    CappedWithin(hs, k);
    if Newest(t, k) == Newest(s, k) {
      forall x | x in s && x !in Capped(hs, k)
        ensures |Newer(t, x)| >= k
      {
        MissingIsOld(s, t, k, x);
      }
    } else if forall x :: x in s && x !in Capped(hs, k) ==> |Newer(t, x)| >= k {
      forall x | x in Newest(s, k)
        ensures x in t
      {
        InNewest(s, k, x);
        NewerIn(t, s, x);
      }
      assert ToSet(Newest(s, k)) <= t;
      NewestOfPart(s, t, k);
      assert false;
    }
  }

  lemma {:induction false} MissingIsOld(s: set<nat>, t: set<nat>, k: nat, x: nat)
    requires t <= s && x in s && x !in t && Newest(t, k) == Newest(s, k)
    ensures |Newer(t, x)| >= k
  {
    hide Newest;
    NewestDescends(t, k);
    InNewest(s, k, x);
    assert x !in Newest(s, k) by {
      assert x !in ToSet(Newest(t, k));
    }
    NewestDescends(s, k);
    SubsetSize(Newer(s, x), s);
    var top := Newest(t, k);
    DistinctSize(top);
    forall y | y in top
      ensures y in Newer(t, x)
    {
      assert y in ToSet(top);
      InNewest(s, k, y);
      if y <= x {
        assert Newer(s, x) <= Newer(s, y);
        SubsetSize(Newer(s, x), Newer(s, y));
      }
    }
    assert ToSet(top) <= Newer(t, x);
    SubsetSize(ToSet(top), Newer(t, x));
  }

  /** Nothing is lost when none of the kept transactions is left out. */
  lemma {:induction false} CapLosesNothing(hs: seq<set<nat>>, k: nat, gone: set<nat>)
    requires gone !! Capped(hs, k)
    ensures Newest(Capped(hs, k) - gone, k) == Newest(All(hs) - gone, k)
  {
    hide Capped, All, Newer, Newest;
    assert Capped(hs, k) - gone == Capped(hs, k);
    forall x | x in All(hs) - gone && x !in Capped(hs, k)
      ensures |Newer(Capped(hs, k) - gone, x)| >= k
    {
      CutOffIsOld(hs, k, x);
    }
    CapExactWhen(hs, k, gone);
  }

  /** One address, one slot: the newest confirmed transaction is still listed as
      pending, so the cap spent on it hides the one before. */
  lemma {:induction false} CapCanLose()
    ensures Newest(Capped([{4, 5}], 1) - {5}, 1) != Newest(All([{4, 5}]) - {5}, 1)
  {
    var hs: seq<set<nat>> := [{4, 5}];
    assert Newer({4, 5}, 5) == {} && Newer({4, 5}, 4) == {5};
    InNewest({4, 5}, 1, 5);
    InNewest({4, 5}, 1, 4);
    assert 4 in All(hs) - {5} by { assert 4 in hs[0]; }
    assert Newer(All(hs) - {5}, 4) == {};
    InNewest(All(hs) - {5}, 1, 4);
    assert 4 !in Capped(hs, 1);
    InNewest(Capped(hs, 1) - {5}, 1, 4);
  }

  // ------------------------------------------------------- the history cursor

  predicate Before(a: Touch, b: Touch) {
    a.program < b.program || (a.program == b.program && a.txnum < b.txnum)
  }

  /** The `history` keys as the store iterates them. */
  ghost predicate KeyOrder(keys: seq<Touch>) {
    && (forall i, j :: 0 <= i < j < |keys| ==> Before(keys[i], keys[j]))
    && (forall i :: 0 <= i < |keys| ==> keys[i].txnum <= MAX_TXNUM)
  }

  ghost function TxnumsOf(keys: seq<Touch>, p: Program): set<nat> {
    set i | 0 <= i < |keys| && keys[i].program == p :: keys[i].txnum
  }

  lemma {:induction false} DropForeign(keys: seq<Touch>, p: Program, i: nat)
    requires 0 < i <= |keys| && keys[i - 1].program != p
    ensures TxnumsOf(keys[..i], p) == TxnumsOf(keys[..i - 1], p)
  {
    var a, b := keys[..i], keys[..i - 1];
    forall x | x in TxnumsOf(a, p)
      ensures x in TxnumsOf(b, p)
    {
      var j :| 0 <= j < |a| && a[j].program == p && a[j].txnum == x;
      assert b[j] == a[j];
    }
    forall x | x in TxnumsOf(b, p)
      ensures x in TxnumsOf(a, p)
    {
      var j :| 0 <= j < |b| && b[j].program == p && b[j].txnum == x;
      assert b[j] == a[j];
    }
  }

  lemma {:induction false} LastIsNewest(keys: seq<Touch>, p: Program, i: nat)
    requires KeyOrder(keys) && 0 < i <= |keys| && keys[i - 1].program == p
    ensures var s := TxnumsOf(keys[..i], p);
            s != {} && Max(s) == keys[i - 1].txnum && s - {Max(s)} == TxnumsOf(keys[..i - 1], p)
  {
    var a, b := keys[..i], keys[..i - 1];
    var n := keys[i - 1].txnum;
    assert a[i - 1].program == p;
    assert n in TxnumsOf(a, p);
    forall x | x in TxnumsOf(a, p)
      ensures x <= n && (x != n ==> x in TxnumsOf(b, p))
    {
      var j :| 0 <= j < |a| && a[j].program == p && a[j].txnum == x;
      if j < i - 1 {
        assert Before(keys[j], keys[i - 1]);
        assert b[j] == a[j];
      }
    }
    forall x | x in TxnumsOf(b, p)
      ensures x in TxnumsOf(a, p) && x != n
    {
      var j :| 0 <= j < |b| && b[j].program == p && b[j].txnum == x;
      assert Before(keys[j], keys[i - 1]);
      assert a[j] == b[j];
    }
    assert Max(TxnumsOf(a, p)) == n;
  }

  lemma {:induction false} NoneLeft(keys: seq<Touch>, p: Program, i: nat)
    requires KeyOrder(keys) && i <= |keys|
    requires i > 0 ==> keys[i - 1].program < p
    ensures TxnumsOf(keys[..i], p) == {}
  {
    forall j | 0 <= j < i
      ensures keys[j].program != p
    {
      if j < i - 1 {
        assert Before(keys[j], keys[i - 1]);
      }
    }
  }

  /** `history`: seek to the last key of `p` and walk back, at most `limit`. */
  method History(keys: seq<Touch>, p: Program, limit: nat) returns (out: seq<TxNum>)
    requires KeyOrder(keys)
    ensures out == Newest(TxnumsOf(keys, p), limit)
  {
    hide Newest, TxnumsOf;
    var i := |keys|;
    assert keys[..i] == keys;
    while i > 0 && Before(Touch(p, MAX_TXNUM), keys[i - 1])
      invariant 0 <= i <= |keys|
      invariant TxnumsOf(keys[..i], p) == TxnumsOf(keys, p)
    {
      DropForeign(keys, p, i);
      i := i - 1;
    }
    out := [];
    while |out| < limit && i > 0 && keys[i - 1].program == p
      invariant 0 <= i <= |keys| && |out| <= limit
      invariant i > 0 ==> keys[i - 1].program <= p
      invariant out + Newest(TxnumsOf(keys[..i], p), limit - |out|) == Newest(TxnumsOf(keys, p), limit)
    {
      LastIsNewest(keys, p, i);
      NewestStep(TxnumsOf(keys[..i], p), limit - |out|);
      if i > 1 {
        assert Before(keys[i - 2], keys[i - 1]);
      }
      out := out + [keys[i - 1].txnum];
      i := i - 1;
    }
    if |out| < limit {
      NoneLeft(keys, p, i);
    }
    NewestNone(TxnumsOf(keys[..i], p), limit - |out|);
  }

  lemma {:induction false} NewestStep(s: set<nat>, k: nat)
    requires k > 0 && s != {}
    ensures Newest(s, k) == [Max(s)] + Newest(s - {Max(s)}, k - 1)
  {
  }

  lemma {:induction false} NewestNone(s: set<nat>, k: nat)
    ensures k == 0 || s == {} ==> Newest(s, k) == []
  {
  }
}
