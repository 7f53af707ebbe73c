/** The mempool tracker: each refresh fetches only what is new, and must end up
    where a rebuild from the snapshot would. */
module Tracker {
  import opened Types
  import opened Ledger
  import opened Mempool

  const RAW_BATCH: nat := 500

  /** A txid determines the rows extracted from its transaction. */
  ghost predicate Extracts(extract: Txid -> Option<TxRows>) {
    forall id :: extract(id).Some? ==> extract(id).value.txid == id && DistinctVouts(extract(id).value)
  }

  /** The rows of exactly the transactions of `ids` that are at hand. */
  ghost function RowsOf(ids: set<Txid>, have: set<Txid>, extract: Txid -> Option<TxRows>): map<Txid, TxRows> {
    map id | id in ids && id in have && extract(id).Some? :: extract(id).value
  }

  ghost function NothingOf(ids: set<Txid>, have: set<Txid>, extract: Txid -> Option<TxRows>): set<Txid> {
    set id | id in ids && id in have && extract(id).None?
  }

  class MempoolTracker {
    const extract: Txid -> Option<TxRows>
    var rows: map<Txid, TxRows>
    /** Fetched, and touching no program. */
    var nothing: set<Txid>
    var sequence: Option<nat>
    /** The txids of the last snapshot processed. */
    ghost var listed: set<Txid>

    /** Everything fetched that the last snapshot still listed. */
    ghost function Have(): set<Txid>
      reads this
    {
      rows.Keys + nothing
    }

    ghost predicate Valid()
      reads this
    {
      && Extracts(extract)
      && Have() <= listed
      && rows == RowsOf(listed, Have(), extract)
      && nothing == NothingOf(listed, Have(), extract)
    }

    constructor (extract: Txid -> Option<TxRows>)
      requires Extracts(extract)
      ensures Valid() && this.extract == extract && rows == map[] && nothing == {} && sequence == None
    {
      this.extract := extract;
      rows, nothing, sequence, listed := map[], {}, None, {};
    }

    /** Fetch one chunk; `got(id)` says whether its raw transaction came back. */
    method FetchChunk(chunk: seq<Txid>, got: Txid -> bool)
      requires Valid() && ToSet(chunk) <= listed
      modifies this`rows, this`nothing
      ensures Valid() && Have() == old(Have()) + set id | id in chunk && got(id)
    {
      for i := 0 to |chunk|
        invariant Valid() && Have() == old(Have()) + set id | id in chunk[..i] && got(id)
      {
        var id := chunk[i];
        assert chunk[..i + 1] == chunk[..i] + [id];
        assert id in ToSet(chunk);
        if got(id) {
          var x := extract(id);
          if x.Some? {
            rows := rows[id := x.value];
          } else {
            nothing := nothing + {id};
          }
        }
      }
      assert chunk[..|chunk|] == chunk;
    }

    /** Keep only what the new snapshot still lists. */
    method Retain(current: set<Txid>)
      requires Valid()
      modifies this`rows, this`nothing, this`listed
      ensures Valid() && listed == current && Have() == old(Have()) * current
    {
      rows := map id | id in rows && id in current :: rows[id];
      nothing := nothing * current;
      listed := current;
    }

    /** Refresh from the node. `failAt` is the chunk whose fetch fails. */
    method Refresh(snapshot: Option<(nat, seq<Txid>)>, got: Txid -> bool, failAt: Option<nat>)
      returns (r: Result<Option<View>, ()>)
      requires Valid()
      modifies this
      ensures Valid()
      ensures snapshot.None? ==>
                r.Err? && rows == old(rows) && nothing == old(nothing) && sequence == old(sequence) &&
                listed == old(listed)
      ensures snapshot.Some? && old(sequence) == Some(snapshot.value.0) ==>
                r == Ok(None) && rows == old(rows) && nothing == old(nothing) && sequence == old(sequence) &&
                listed == old(listed)
      ensures snapshot.Some? && old(sequence) != Some(snapshot.value.0) ==>
                r != Ok(None) && listed == ToSet(snapshot.value.1)
      ensures r.Err? ==> sequence == old(sequence)
      ensures r.Ok? && r.value.Some? ==>
                && sequence == Some(snapshot.value.0)
                && Have() == set id | id in snapshot.value.1 && (id in old(Have()) || got(id))
                                      && IsView(r.value.value, RowsOf(listed, Have(), extract))
      ensures failAt.None? && snapshot.Some? ==> r.Ok?
    {
      hide IsView, Extracts;
      if snapshot.None? {
        return Err(());
      }
      var (number, ids) := snapshot.value;
      if sequence == Some(number) {
        return Ok(None);
      }
      Retain(ToSet(ids));
      ghost var had := Have();
      var unfetched := New(ids, rows, nothing);
      var start, chunk := 0, 0;
      while start < |unfetched|
        invariant 0 <= start <= |unfetched| && Valid() && listed == ToSet(ids) && sequence == old(sequence)
        invariant Have() == had + set id | id in unfetched[..start] && got(id)
        decreases |unfetched| - start
      {
        var end := if start + RAW_BATCH < |unfetched| then start + RAW_BATCH else |unfetched|;
        if failAt == Some(chunk) {
          return Err(());
        }
        FetchChunk(unfetched[start..end], got);
        assert unfetched[..end] == unfetched[..start] + unfetched[start..end];
        start, chunk := end, chunk + 1;
      }
      assert unfetched[..|unfetched|] == unfetched;
      sequence := Some(number);
      var v := Build(rows);
      r := Ok(Some(v));
    }
  }

  /** The listed txids not fetched yet, in listing order. */
  method New(ids: seq<Txid>, rows: map<Txid, TxRows>, nothing: set<Txid>) returns (unfetched: seq<Txid>)
    ensures forall id :: id in unfetched <==> id in ids && id !in rows && id !in nothing
  {
    unfetched := [];
    for i := 0 to |ids|
      invariant forall id :: id in unfetched <==> id in ids[..i] && id !in rows && id !in nothing
    {
      assert ids[..i + 1] == ids[..i] + [ids[i]];
      if ids[i] !in rows && ids[i] !in nothing {
        unfetched := unfetched + [ids[i]];
      }
    }
    assert ids[..|ids|] == ids;
  }
}
