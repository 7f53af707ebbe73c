/** The token-bucket limiter. Times are in seconds; tokens and times are exact
    (`real`), so rounding is not modelled. */
module Limiter {
  import opened Types

  const MAX_KEYS: nat := 10_000

  datatype Config = Config(capacity: real, rate: real, maxKeys: nat)

  ghost predicate Sane(cfg: Config) {
    cfg.capacity >= 1.0 && cfg.rate > 0.0 && cfg.maxKeys >= 1
  }

  datatype Bucket = Bucket(tokens: real, last: real)

  type Buckets = map<string, Bucket>

  /** `saturating_duration_since`. */
  function Elapsed(now: real, last: real): real {
    if now < last then 0.0 else now - last
  }

  /** Tokens earned in `seconds`. */
  function Earned(cfg: Config, seconds: real): real {
    seconds * cfg.rate
  }

  function Refilled(cfg: Config, b: Bucket, now: real): real {
    var full := b.tokens + Earned(cfg, Elapsed(now, b.last));
    if full < cfg.capacity then full else cfg.capacity
  }

  /** Tokens `key` would find at `now`: a missing bucket is a full one. */
  function Available(cfg: Config, m: Buckets, key: string, now: real): real {
    if key in m then Refilled(cfg, m[key], now) else cfg.capacity
  }

  /** One call on a limiter that never drops a bucket. */
  function Take(cfg: Config, m: Buckets, key: string, now: real): (bool, Buckets) {
    var tokens := Available(cfg, m, key, now);
    if tokens >= 1.0 then (true, m[key := Bucket(tokens - 1.0, now)]) else (false, m[key := Bucket(tokens, now)])
  }

  /** The buckets a cleanup keeps: those not refilled yet. */
  function Unfilled(cfg: Config, m: Buckets, now: real): Buckets {
    map k | k in m && m[k].tokens + Earned(cfg, Elapsed(now, m[k].last)) < cfg.capacity :: m[k]
  }

  datatype State = State(buckets: Buckets, nextCleanup: nat)

  function Max(a: nat, b: nat): nat {
    if a < b then b else a
  }

  predicate Cleans(s: State, key: string) {
    key !in s.buckets && |s.buckets| >= s.nextCleanup
  }

  /** One call on the real limiter. */
  function Checked(cfg: Config, s: State, key: string, now: real): (bool, State) {
    var kept := if Cleans(s, key) then Unfilled(cfg, s.buckets, now) else s.buckets;
    var next := if Cleans(s, key) then Max(cfg.maxKeys, 2 * |kept|) else s.nextCleanup;
    var (ok, buckets) := Take(cfg, kept, key, now);
    (ok, State(buckets, next))
  }

  class RateLimiter {
    const cfg: Config
    var buckets: Buckets
    var nextCleanup: nat

    ghost function Value(): State
      reads this
    {
      State(buckets, nextCleanup)
    }

    /** Rate and capacity, neither below one. */
    constructor (perMin: nat, burst: nat)
      ensures Sane(cfg) && Value() == State(map[], 10_000) && cfg.maxKeys == 10_000
      ensures cfg.capacity == Max(burst, 1) as real && cfg.rate == Max(perMin, 1) as real / 60.0
    {
      cfg := Config(Max(burst, 1) as real, Max(perMin, 1) as real / 60.0, MAX_KEYS);
      buckets, nextCleanup := map[], MAX_KEYS;
    }

    /** The buckets not refilled by `now`. */
    method Retain(now: real) returns (kept: Buckets)
      ensures kept == Unfilled(cfg, buckets, now)
    {
      hide Earned, Elapsed;
      kept := map[];
      var rest := buckets.Keys;
      while rest != {}
        invariant rest <= buckets.Keys
        invariant kept == map k | k in buckets && k !in rest &&
                                  buckets[k].tokens + Earned(cfg, Elapsed(now, buckets[k].last)) < cfg.capacity ::
                            buckets[k]
        decreases rest
      {
        var k :| k in rest;
        if buckets[k].tokens + Earned(cfg, Elapsed(now, buckets[k].last)) < cfg.capacity {
          kept := kept[k := buckets[k]];
        }
        rest := rest - {k};
      }
    }

    /** Take one token. */
    method CheckAt(key: string, now: real) returns (ok: bool)
      modifies this
      ensures (ok, Value()) == Checked(cfg, old(Value()), key, now)
    {
      hide Earned, Unfilled;
      if key !in buckets && |buckets| >= nextCleanup {
        buckets := Retain(now);
        nextCleanup := Max(cfg.maxKeys, 2 * |buckets|);
      }
      var b := if key in buckets then buckets[key] else Bucket(cfg.capacity, now);
      var tokens := b.tokens + Earned(cfg, Elapsed(now, b.last));
      if tokens > cfg.capacity {
        tokens := cfg.capacity;
      }
      NothingEarned(cfg);
      if tokens >= 1.0 {
        buckets := buckets[key := Bucket(tokens - 1.0, now)];
        ok := true;
      } else {
        buckets := buckets[key := Bucket(tokens, now)];
        ok := false;
      }
    }
  }

  lemma {:induction false} NothingEarned(cfg: Config)
    ensures Earned(cfg, 0.0) == 0.0
  {
  }

  // ---------------------------------------------------------- call sequences

  datatype Call = Call(key: string, now: real)

  ghost predicate Ordered(calls: seq<Call>, from: real) {
    && (forall i :: 0 <= i < |calls| ==> from <= calls[i].now)
    && (forall i, j :: 0 <= i < j < |calls| ==> calls[i].now <= calls[j].now)
  }

  function Answers(cfg: Config, s: State, calls: seq<Call>): seq<bool>
    decreases |calls|
  {
    if calls == [] then []
    else
      var (ok, s') := Checked(cfg, s, calls[0].key, calls[0].now);
      [ok] + Answers(cfg, s', calls[1..])
  }

  /** The answers of a limiter that never drops a bucket. */
  function Reference(cfg: Config, m: Buckets, calls: seq<Call>): seq<bool>
    decreases |calls|
  {
    if calls == [] then []
    else
      var (ok, m') := Take(cfg, m, calls[0].key, calls[0].now);
      [ok] + Reference(cfg, m', calls[1..])
  }

  lemma {:induction false} EarnedGrows(cfg: Config, a: real, b: real)
    requires a <= b && cfg.rate > 0.0
    ensures Earned(cfg, a) <= Earned(cfg, b) && Earned(cfg, 0.0) == 0.0
  {
    assert (b - a) * cfg.rate >= 0.0;
  }

  lemma {:induction false} EarnedIs(cfg: Config, seconds: real)
    ensures Earned(cfg, seconds) == cfg.rate * seconds
  {
  }

  lemma {:induction false} EarnedAdds(cfg: Config, a: real, b: real)
    ensures Earned(cfg, a + b) == Earned(cfg, a) + Earned(cfg, b)
  {
  }

  // ------------------------------------------------- when eviction cannot be seen

  /** The real map holds some of the buckets of one that never drops any. */
  ghost predicate Included(m: Buckets, r: Buckets) {
    forall k :: k in m ==> k in r && m[k] == r[k]
  }

  /** A bucket that was dropped has refilled by the time of the call. */
  predicate Harmless(cfg: Config, m: Buckets, r: Buckets, c: Call) {
    c.key in r && c.key !in m ==> r[c.key].tokens + Earned(cfg, Elapsed(c.now, r[c.key].last)) >= cfg.capacity
  }

  /** Every call is harmless when it is made. */
  predicate Unseen(cfg: Config, s: State, r: Buckets, calls: seq<Call>)
    decreases |calls|
  {
    calls == [] ||
    var c := calls[0];
    && Harmless(cfg, s.buckets, r, c)
    && Unseen(cfg, Checked(cfg, s, c.key, c.now).1, Take(cfg, r, c.key, c.now).1, calls[1..])
  }

  /** What the real limiter takes from: the buckets after its cleanup, if any. */
  function Kept(cfg: Config, s: State, c: Call): Buckets {
    if Cleans(s, c.key) then Unfilled(cfg, s.buckets, c.now) else s.buckets
  }

  lemma {:induction false} KeptIncluded(cfg: Config, s: State, r: Buckets, c: Call)
    requires Included(s.buckets, r)
    ensures Included(Kept(cfg, s, c), r) && (c.key in Kept(cfg, s, c) <==> c.key in s.buckets)
    ensures Checked(cfg, s, c.key, c.now).0 == Take(cfg, Kept(cfg, s, c), c.key, c.now).0
    ensures Checked(cfg, s, c.key, c.now).1.buckets == Take(cfg, Kept(cfg, s, c), c.key, c.now).1
  {
    hide Earned, Elapsed, Available;
  }

  /** A harmless call is answered alike and leaves the maps as they were to each other. */
  lemma {:induction false} HarmlessStep(cfg: Config, s: State, r: Buckets, c: Call)
    requires Included(s.buckets, r) && Harmless(cfg, s.buckets, r, c)
    ensures Checked(cfg, s, c.key, c.now).0 == Take(cfg, r, c.key, c.now).0
    ensures Included(Checked(cfg, s, c.key, c.now).1.buckets, Take(cfg, r, c.key, c.now).1)
  {
    hide Earned, Elapsed, Unfilled, Checked;
    KeptIncluded(cfg, s, r, c);
    assert Available(cfg, Kept(cfg, s, c), c.key, c.now) == Available(cfg, r, c.key, c.now);
  }

  /** As long as every call is harmless, every answer is the one a limiter that
      never drops a bucket gives, in whatever order the calls come. */
  lemma {:induction false} EvictionUnobservable(cfg: Config, s: State, r: Buckets, calls: seq<Call>)
    requires Included(s.buckets, r) && Unseen(cfg, s, r, calls)
    ensures Answers(cfg, s, calls) == Reference(cfg, r, calls)
    decreases |calls|
  {
    hide Included, Harmless, Checked, Take;
    if calls != [] {
      var c := calls[0];
      HarmlessStep(cfg, s, r, c);
      EvictionUnobservable(cfg, Checked(cfg, s, c.key, c.now).1, Take(cfg, r, c.key, c.now).1, calls[1..]);
    }
  }

  // -------------------------------------------------- when it can, and only then

  function Copies(c: Call, n: nat): seq<Call> {
    if n == 0 then [] else [c] + Copies(c, n - 1)
  }

  /** The answers to `n` calls at one time on a bucket of `tokens`. */
  function Drained(tokens: real, n: nat): seq<bool>
    decreases n
  {
    if n == 0 then [] else if tokens >= 1.0 then [true] + Drained(tokens - 1.0, n - 1)
    else [false] + Drained(tokens, n - 1)
  }

  /** Enough tokens and every call is allowed; too few and not. */
  lemma {:induction false} DrainedAll(tokens: real, n: nat)
    ensures |Drained(tokens, n)| == n
    ensures (forall i :: 0 <= i < n ==> Drained(tokens, n)[i]) <==> tokens >= n as real || n == 0
    decreases n
  {
    if n > 0 {
      var rest := Drained(if tokens >= 1.0 then tokens - 1.0 else tokens, n - 1);
      DrainedAll(if tokens >= 1.0 then tokens - 1.0 else tokens, n - 1);
      var all := Drained(tokens, n);
      assert forall i :: 0 <= i < n - 1 ==> all[i + 1] == rest[i];
      assert all[0] <==> tokens >= 1.0;
      if tokens >= 1.0 && forall i :: 0 <= i < n - 1 ==> rest[i] {
        forall i | 0 <= i < n
          ensures all[i]
        {
          assert i > 0 ==> all[i] == rest[i - 1];
        }
      } else if tokens >= 1.0 {
        var i :| 0 <= i < n - 1 && !rest[i];
        assert !all[i + 1];
      }
    }
  }

  lemma {:induction false} TakeDrains(cfg: Config, m: Buckets, c: Call, n: nat)
    requires Sane(cfg) && Filled(cfg, m)
    ensures Reference(cfg, m, Copies(c, n)) == Drained(Available(cfg, m, c.key, c.now), n)
    decreases n
  {
    hide Earned, Available, Filled;
    if n > 0 {
      var m' := Take(cfg, m, c.key, c.now).1;
      AvailableFits(cfg, m, c.key, c.now);
      TakeDrains(cfg, m', c, n - 1);
      SameTime(cfg, m', c.key, c.now);
      assert Copies(c, n)[1..] == Copies(c, n - 1);
    }
  }

  lemma {:induction false} SameTime(cfg: Config, m: Buckets, key: string, now: real)
    requires key in m && m[key].last == now && m[key].tokens <= cfg.capacity
    ensures Available(cfg, m, key, now) == m[key].tokens
  {
  }

  lemma {:induction false} CheckDrains(cfg: Config, s: State, c: Call, n: nat)
    requires Sane(cfg) && Filled(cfg, s.buckets)
    ensures Answers(cfg, s, Copies(c, n)) == Drained(Available(cfg, s.buckets, c.key, c.now), n)
    decreases n
  {
    hide Earned, Available, Filled, Checked, Take, Included, Unfilled;
    if n > 0 {
      var s' := Checked(cfg, s, c.key, c.now).1;
      KeptFilled(cfg, s, c);
      AvailableFits(cfg, Kept(cfg, s, c), c.key, c.now);
      AfterTake(cfg, Kept(cfg, s, c), c.key, c.now);
      CheckDrains(cfg, s', c, n - 1);
      SameTime(cfg, s'.buckets, c.key, c.now);
      assert Copies(c, n)[1..] == Copies(c, n - 1);
    }
  }

  lemma {:induction false} KeptFilled(cfg: Config, s: State, c: Call)
    requires Filled(cfg, s.buckets)
    ensures Filled(cfg, Kept(cfg, s, c))
    ensures Available(cfg, Kept(cfg, s, c), c.key, c.now) == Available(cfg, s.buckets, c.key, c.now)
    ensures Checked(cfg, s, c.key, c.now).0 == Take(cfg, Kept(cfg, s, c), c.key, c.now).0
    ensures Checked(cfg, s, c.key, c.now).1.buckets == Take(cfg, Kept(cfg, s, c), c.key, c.now).1
  {
    hide Earned, Elapsed;
  }

  lemma {:induction false} AfterTake(cfg: Config, m: Buckets, key: string, now: real)
    requires Available(cfg, m, key, now) <= cfg.capacity
    ensures var (ok, m') := Take(cfg, m, key, now); var tokens := Available(cfg, m, key, now);
                                                    && (ok <==> tokens >= 1.0)
                                                    && key in m' && m'[key] ==
                                                                    Bucket(if tokens >= 1.0 then tokens - 1.0
                                                                           else tokens, now)
                                                    && m'[key].tokens <= cfg.capacity
  {
    hide Available;
  }

  /** A call that is not harmless gives the eviction away: as many copies of it
      as the bucket has room for are all allowed, and would not all have been. */
  lemma {:induction false} HarmfulIsSeen(cfg: Config, s: State, r: Buckets, c: Call, n: nat)
    requires Sane(cfg) && cfg.capacity == n as real && Filled(cfg, r)
    requires Included(s.buckets, r) && !Harmless(cfg, s.buckets, r, c)
    ensures Answers(cfg, s, Copies(c, n)) != Reference(cfg, r, Copies(c, n))
  {
    hide Earned, Elapsed, Answers, Reference, Drained;
    TakeDrains(cfg, r, c, n);
    CheckDrains(cfg, s, c, n);
    DrainedAll(Available(cfg, s.buckets, c.key, c.now), n);
    DrainedAll(Available(cfg, r, c.key, c.now), n);
    assert Available(cfg, s.buckets, c.key, c.now) == cfg.capacity;
    assert Available(cfg, r, c.key, c.now) < cfg.capacity;
  }

  /** The calls, with the `i`-th repeated `n` times and nothing after it. */
  function Repeated(calls: seq<Call>, i: nat, n: nat): seq<Call>
    requires i < |calls|
  {
    calls[..i] + Copies(calls[i], n)
  }

  lemma {:induction false} RepeatedLater(calls: seq<Call>, i: nat, n: nat)
    requires 0 < i < |calls|
    ensures var all := Repeated(calls, i, n); all != [] && all[0] == calls[0] &&
                                              all[1..] == Repeated(calls[1..], i - 1, n)
  {
    hide Copies;
    assert calls[..i][1..] == calls[1..][..i - 1];
  }

  lemma {:induction false} RepeatedAlike(cfg: Config, s: State, r: Buckets, calls: seq<Call>, i: nat, n: nat)
    requires Sane(cfg) && Filled(cfg, r) && Included(s.buckets, r) && Unseen(cfg, s, r, calls) && i < |calls|
    ensures Answers(cfg, s, Repeated(calls, i, n)) == Reference(cfg, r, Repeated(calls, i, n))
    decreases i
  {
    hide Included, Harmless, Checked, Take, Copies, Filled, Repeated;
    var c := calls[0];
    if i == 0 {
      FirstRepeated(calls, n);
      SmallerFilled(cfg, s.buckets, r);
      CheckDrains(cfg, s, c, n);
      TakeDrains(cfg, r, c, n);
      HarmlessAvailable(cfg, s.buckets, r, c);
    } else {
      HarmlessStep(cfg, s, r, c);
      AvailableFits(cfg, r, c.key, c.now);
      RepeatedLater(calls, i, n);
      RepeatedAlike(cfg, Checked(cfg, s, c.key, c.now).1, Take(cfg, r, c.key, c.now).1, calls[1..], i - 1, n);
    }
  }

  lemma {:induction false} FirstRepeated(calls: seq<Call>, n: nat)
    requires calls != []
    ensures Repeated(calls, 0, n) == Copies(calls[0], n)
  {
  }

  lemma {:induction false} SmallerFilled(cfg: Config, m: Buckets, r: Buckets)
    requires Included(m, r) && Filled(cfg, r)
    ensures Filled(cfg, m)
  {
  }

  lemma {:induction false} HarmlessAvailable(cfg: Config, m: Buckets, r: Buckets, c: Call)
    requires Included(m, r) && Harmless(cfg, m, r, c)
    ensures Available(cfg, m, c.key, c.now) == Available(cfg, r, c.key, c.now)
  {
    hide Earned, Elapsed;
  }

  lemma {:induction false} FirstHarm(cfg: Config, s: State, r: Buckets, calls: seq<Call>, n: nat) returns (i: nat)
    requires Sane(cfg) && cfg.capacity == n as real && Filled(cfg, r) && Included(s.buckets, r)
    requires !Unseen(cfg, s, r, calls)
    ensures i < |calls| && Answers(cfg, s, Repeated(calls, i, n)) != Reference(cfg, r, Repeated(calls, i, n))
    decreases |calls|
  {
    hide Included, Harmless, Checked, Take, Copies, Filled, Repeated;
    var c := calls[0];
    if !Harmless(cfg, s.buckets, r, c) {
      i := 0;
      FirstRepeated(calls, n);
      HarmfulIsSeen(cfg, s, r, c, n);
    } else {
      HarmlessStep(cfg, s, r, c);
      AvailableFits(cfg, r, c.key, c.now);
      var j := FirstHarm(cfg, Checked(cfg, s, c.key, c.now).1, Take(cfg, r, c.key, c.now).1, calls[1..], n);
      i := j + 1;
      RepeatedLater(calls, i, n);
      var all := Repeated(calls, i, n);
      assert Answers(cfg, s, all)[1..] == Answers(cfg, Checked(cfg, s, c.key, c.now).1, all[1..]);
      assert Reference(cfg, r, all)[1..] == Reference(cfg, Take(cfg, r, c.key, c.now).1, all[1..]);
    }
  }

  /** Exactly when eviction cannot be seen. For a whole capacity, as the
      constructor makes it, every call is harmless iff no call of the sequence,
      repeated any number of times at its moment, gets other answers than from
      a limiter that never drops a bucket. */
  lemma {:induction false} EvictionIsExact(cfg: Config, s: State, r: Buckets, calls: seq<Call>, n: nat)
    requires Sane(cfg) && cfg.capacity == n as real && Filled(cfg, r) && Included(s.buckets, r)
    ensures Unseen(cfg, s, r, calls) <==>
            forall i: nat, k: nat :: i < |calls| ==>
                                       Answers(cfg, s, Repeated(calls, i, k)) ==
                                       Reference(cfg, r, Repeated(calls, i, k))
  {
    hide Included, Filled, Repeated, Answers, Reference, Unseen;
    if Unseen(cfg, s, r, calls) {
      forall i: nat, k: nat | i < |calls|
        ensures Answers(cfg, s, Repeated(calls, i, k)) == Reference(cfg, r, Repeated(calls, i, k))
      {
        RepeatedAlike(cfg, s, r, calls, i, k);
      }
    } else {
      var i := FirstHarm(cfg, s, r, calls, n);
    }
  }

  // -------------------------------------------------------------- calls in order

  /** What `r` holds and `m` lacks is full by time `t`. */
  ghost predicate FullBy(cfg: Config, m: Buckets, r: Buckets, t: real) {
    forall k :: k in r && k !in m ==> r[k].tokens + Earned(cfg, Elapsed(t, r[k].last)) >= cfg.capacity
  }

  lemma {:induction false} FullLater(cfg: Config, m: Buckets, r: Buckets, t: real, now: real)
    requires cfg.rate > 0.0 && FullBy(cfg, m, r, t) && t <= now
    ensures FullBy(cfg, m, r, now)
  {
    hide Earned;
    forall k | k in r && k !in m
      ensures r[k].tokens + Earned(cfg, Elapsed(now, r[k].last)) >= cfg.capacity
    {
      EarnedGrows(cfg, Elapsed(t, r[k].last), Elapsed(now, r[k].last));
    }
  }

  lemma {:induction false} FullStep(cfg: Config, s: State, r: Buckets, c: Call)
    requires Included(s.buckets, r) && FullBy(cfg, s.buckets, r, c.now)
    ensures FullBy(cfg, Checked(cfg, s, c.key, c.now).1.buckets, Take(cfg, r, c.key, c.now).1, c.now)
  {
    hide Earned, Elapsed, Available;
  }

  /** Calls in time order are all harmless. */
  lemma {:induction false} OrderedIsUnseen(cfg: Config, s: State, r: Buckets, calls: seq<Call>, t: real)
    requires cfg.rate > 0.0 && Included(s.buckets, r) && FullBy(cfg, s.buckets, r, t) && Ordered(calls, t)
    ensures Unseen(cfg, s, r, calls)
    decreases |calls|
  {
    hide Included, Checked, Take, FullBy, Harmless;
    if calls != [] {
      var c := calls[0];
      FullLater(cfg, s.buckets, r, t, c.now);
      FullIsHarmless(cfg, s.buckets, r, c);
      HarmlessStep(cfg, s, r, c);
      FullStep(cfg, s, r, c);
      OrderedIsUnseen(cfg, Checked(cfg, s, c.key, c.now).1, Take(cfg, r, c.key, c.now).1, calls[1..], c.now);
    }
  }

  lemma {:induction false} FullIsHarmless(cfg: Config, m: Buckets, r: Buckets, c: Call)
    requires FullBy(cfg, m, r, c.now)
    ensures Harmless(cfg, m, r, c)
  {
  }

  // ------------------------------------------------------ a limiter caught evicting

  /** Distinct keys. */
  function Name(i: nat): string {
    seq(i, _ => 'k')
  }

  /** The buckets of the first `j` keys, emptied at time 0. */
  function Emptied(j: nat): Buckets {
    if j == 0 then map[] else Emptied(j - 1)[Name(j - 1) := Bucket(0.0, 0.0)]
  }

  /** One call each by the keys from `j` on, at time 0. */
  function Fills(j: nat, n: nat): seq<Call>
    decreases n - j
  {
    if j >= n then [] else [Call(Name(j), 0.0)] + Fills(j + 1, n)
  }

  lemma {:induction false} EmptiedHas(j: nat)
    ensures |Emptied(j)| == j
    ensures forall i: nat :: Name(i) in Emptied(j) <==> i < j
    ensures forall k :: k in Emptied(j) ==> Emptied(j)[k] == Bucket(0.0, 0.0)
  {
    if j > 0 {
      EmptiedHas(j - 1);
      assert forall i: nat :: Name(i) == Name(j - 1) ==> |Name(i)| == |Name(j - 1)|;
    }
  }

  lemma {:induction false} FillStep(cfg: Config, j: nat)
    requires cfg == Config(1.0, 1.0, cfg.maxKeys) && j < cfg.maxKeys
    ensures Harmless(cfg, Emptied(j), Emptied(j), Call(Name(j), 0.0))
    ensures Take(cfg, Emptied(j), Name(j), 0.0).1 == Emptied(j + 1)
    ensures Checked(cfg, State(Emptied(j), cfg.maxKeys), Name(j), 0.0).1 == State(Emptied(j + 1), cfg.maxKeys)
  {
    EmptiedHas(j);
  }

  /** Filling the map up is harmless, so what follows decides. */
  lemma {:induction false} FilledUp(cfg: Config, j: nat, tail: seq<Call>)
    requires cfg == Config(1.0, 1.0, cfg.maxKeys) && j <= cfg.maxKeys
    ensures Unseen(cfg, State(Emptied(j), cfg.maxKeys), Emptied(j), Fills(j, cfg.maxKeys) + tail) <==>
            Unseen(cfg, State(Emptied(cfg.maxKeys), cfg.maxKeys), Emptied(cfg.maxKeys), tail)
    decreases cfg.maxKeys - j
  {
    hide Harmless, Take, Checked, Emptied;
    var n := cfg.maxKeys;
    if j == n {
      assert Fills(j, n) + tail == tail;
    } else {
      FillStep(cfg, j);
      FilledUp(cfg, j + 1, tail);
      var calls := Fills(j, n) + tail;
      assert calls[0] == Call(Name(j), 0.0) && calls[1..] == Fills(j + 1, n) + tail;
    }
  }

  lemma {:induction false} OneMoreDropsAll(cfg: Config)
    requires cfg == Config(1.0, 1.0, cfg.maxKeys) && cfg.maxKeys >= 1
    ensures var n := cfg.maxKeys;
            && Checked(cfg, State(Emptied(n), n), Name(n), 10.0).1.buckets.Keys == {Name(n)}
            && Take(cfg, Emptied(n), Name(n), 10.0).1 == Emptied(n)[Name(n) := Bucket(0.0, 10.0)]
  {
    var n := cfg.maxKeys;
    EmptiedHas(n);
    assert Unfilled(cfg, Emptied(n), 10.0) == map[];
  }

  lemma {:induction false} FirstKeyHarmed(cfg: Config, m: Buckets, r: Buckets)
    requires cfg == Config(1.0, 1.0, cfg.maxKeys) && cfg.maxKeys >= 1
    requires m.Keys == {Name(cfg.maxKeys)} && r == Emptied(cfg.maxKeys)[Name(cfg.maxKeys) := Bucket(0.0, 10.0)]
    ensures !Harmless(cfg, m, r, Call(Name(0), 0.0))
  {
    EmptiedHas(cfg.maxKeys);
    assert |Name(0)| != |Name(cfg.maxKeys)|;
  }

  /** A limiter of one token a second and any key cap, as `new` builds it: fill
      the map, let a new key ten seconds later drop every bucket, and call the
      first key at its old time. */
  lemma {:induction false} EvictionSeenOutOfOrder(cfg: Config) returns (calls: seq<Call>)
    requires cfg == Config(1.0, 1.0, cfg.maxKeys) && cfg.maxKeys >= 1
    ensures Answers(cfg, State(map[], cfg.maxKeys), calls) != Reference(cfg, map[], calls)
  {
    hide Harmless, Take, Checked, Emptied, Answers, Reference, Repeated, Fills;
    var n := cfg.maxKeys;
    var last, early := Call(Name(n), 10.0), Call(Name(0), 0.0);
    OneMoreDropsAll(cfg);
    var s, r := Checked(cfg, State(Emptied(n), n), Name(n), 10.0).1, Take(cfg, Emptied(n), Name(n), 10.0).1;
    FirstKeyHarmed(cfg, s.buckets, r);
    assert [last, early][1..] == [early];
    assert !Unseen(cfg, s, r, [early]);
    assert !Unseen(cfg, State(Emptied(n), n), Emptied(n), [last, early]);
    FilledUp(cfg, 0, [last, early]);
    assert Emptied(0) == map[] by { NoneEmptied(); }
    var i := FirstHarm(cfg, State(map[], n), map[], Fills(0, n) + [last, early], 1);
    calls := Repeated(Fills(0, n) + [last, early], i, 1);
  }

  lemma {:induction false} NoneEmptied()
    ensures Emptied(0) == map[]
  {
  }

  lemma {:induction false} FirstCall(cfg: Config, s: State, key: string, now: real)
    requires cfg == Config(1.0, 1.0, cfg.maxKeys) && s.buckets == map[] && s.nextCleanup > 0
    ensures Checked(cfg, s, key, now) == (true, State(map[key := Bucket(0.0, now)], s.nextCleanup))
  {
  }

  lemma {:induction false} AnswersThree(cfg: Config, s0: State, s1: State, s2: State, a: Call, b: Call, c: Call)
    requires Checked(cfg, s0, a.key, a.now).1 == s1 && Checked(cfg, s1, b.key, b.now).1 == s2
    ensures Answers(cfg, s0, [a, b, c]) ==
            [Checked(cfg, s0, a.key, a.now).0, Checked(cfg, s1, b.key, b.now).0, Checked(cfg, s2, c.key, c.now).0]
  {
    hide Checked;
    assert [a, b, c][1..] == [b, c] && [b, c][1..] == [c] && [c][1..] == [];
    assert Answers(cfg, s2, [c]) == [Checked(cfg, s2, c.key, c.now).0];
    assert Answers(cfg, s1, [b, c]) == [Checked(cfg, s1, b.key, b.now).0] + Answers(cfg, s2, [c]);
  }


  // ------------------------------------------------------------ the rate bound

  ghost predicate Filled(cfg: Config, m: Buckets) {
    forall k :: k in m ==> 0.0 <= m[k].tokens <= cfg.capacity
  }

  function Allowed(answers: seq<bool>, calls: seq<Call>, key: string): nat
    requires |answers| == |calls|
  {
    if calls == [] then 0
    else (if answers[0] && calls[0].key == key then 1 else 0) + Allowed(answers[1..], calls[1..], key)
  }

  /** How far the clock of `key` moves forward between its calls, counting every
      forward move again after a backward one. */
  function Forward(calls: seq<Call>, key: string, last: Option<real>): real {
    if calls == [] then 0.0
    else if calls[0].key != key then Forward(calls[1..], key, last)
    else (if last.Some? then Elapsed(calls[0].now, last.value) else 0.0) + Forward(calls[1..], key, Some(calls[0].now))
  }

  lemma {:induction false} ReferenceLength(cfg: Config, m: Buckets, calls: seq<Call>)
    ensures |Reference(cfg, m, calls)| == |calls|
    decreases |calls|
  {
    if calls != [] {
      ReferenceLength(cfg, Take(cfg, m, calls[0].key, calls[0].now).1, calls[1..]);
    }
  }

  lemma {:induction false} AvailableFits(cfg: Config, m: Buckets, key: string, now: real)
    requires Sane(cfg) && Filled(cfg, m)
    ensures 0.0 <= Available(cfg, m, key, now) <= cfg.capacity
    ensures key in m ==> Available(cfg, m, key, now) <= m[key].tokens + Earned(cfg, Elapsed(now, m[key].last))
    ensures Filled(cfg, Take(cfg, m, key, now).1)
  {
    hide Earned;
    if key in m {
      EarnedGrows(cfg, 0.0, Elapsed(now, m[key].last));
    }
  }

  /** Tokens the key can still be granted from, besides what it earns. */
  function Held(cfg: Config, m: Buckets, key: string, last: Option<real>): real {
    if last.Some? && key in m then m[key].tokens else cfg.capacity
  }

  ghost predicate ClockAt(m: Buckets, key: string, last: Option<real>) {
    last.Some? ==> key in m && m[key].last == last.value
  }

  lemma {:induction false} AllowedBound(cfg: Config, m: Buckets, calls: seq<Call>, key: string, last: Option<real>)
    requires Sane(cfg) && Filled(cfg, m) && ClockAt(m, key, last)
    ensures |Reference(cfg, m, calls)| == |calls|
    ensures Allowed(Reference(cfg, m, calls), calls, key) as real <= Held(cfg, m, key, last) +
                                                                     Earned(cfg, Forward(calls, key, last))
    decreases |calls|
  {
    hide Available, Earned, Filled;
    ReferenceLength(cfg, m, calls);
    EarnedGrows(cfg, 0.0, 0.0);
    if calls == [] {
      AvailableFits(cfg, m, key, 0.0);
      HeldFits(cfg, m, key, last);
    } else {
      var c, rest := calls[0], calls[1..];
      var (ok, m') := Take(cfg, m, c.key, c.now);
      AvailableFits(cfg, m, c.key, c.now);
      assert Reference(cfg, m, calls)[1..] == Reference(cfg, m', rest);
      if c.key == key {
        AllowedBound(cfg, m', rest, key, Some(c.now));
        var moved := if last.Some? then Elapsed(c.now, last.value) else 0.0;
        EarnedAdds(cfg, moved, Forward(rest, key, Some(c.now)));
      } else {
        AllowedBound(cfg, m', rest, key, last);
      }
    }
  }

  lemma {:induction false} HeldFits(cfg: Config, m: Buckets, key: string, last: Option<real>)
    requires Sane(cfg) && Filled(cfg, m)
    ensures 0.0 <= Held(cfg, m, key, last) <= cfg.capacity
  {
  }

  /** As long as every call is harmless, and in whatever order they come, a key is
      allowed at most capacity + rate * (what its own clock moved forward) times. */
  lemma {:induction false} AllowedAtMost(cfg: Config, s: State, calls: seq<Call>, key: string)
    requires Sane(cfg) && Filled(cfg, s.buckets) && Unseen(cfg, s, s.buckets, calls)
    ensures |Answers(cfg, s, calls)| == |calls|
    ensures Allowed(Answers(cfg, s, calls), calls, key) as real <= cfg.capacity + cfg.rate * Forward(calls, key, None)
  {
    hide Take, Available, Answers, Reference, Allowed, Unfilled, Earned, Forward;
    EarnedIs(cfg, Forward(calls, key, None));
    EvictionUnobservable(cfg, s, s.buckets, calls);
    AllowedBound(cfg, s.buckets, calls, key, None);
  }

  function LastTime(calls: seq<Call>, from: real): real {
    if calls == [] then from else calls[|calls| - 1].now
  }

  /** In time order a clock moves forward at most from the first call to the last. */
  lemma {:induction false} ForwardOrdered(calls: seq<Call>, key: string, last: Option<real>, t: real)
    requires Ordered(calls, t) && (last.Some? ==> last.value <= t)
    ensures Forward(calls, key, last) <= LastTime(calls, t) - (if last.Some? then last.value else t)
    decreases |calls|
  {
    if calls != [] {
      var c := calls[0];
      ForwardOrdered(calls[1..], key, if c.key == key then Some(c.now) else last, c.now);
      assert LastTime(calls[1..], c.now) == LastTime(calls, t);
    }
  }

  /** From any state it can be in, for calls in time order, the limiter allows a
      key at most capacity + rate * T times within T seconds. */
  lemma {:induction false} RateIsBounded(cfg: Config, s: State, calls: seq<Call>, key: string)
    requires Sane(cfg) && calls != [] && Filled(cfg, s.buckets) && Ordered(calls, calls[0].now)
    ensures |Answers(cfg, s, calls)| == |calls|
    ensures Allowed(Answers(cfg, s, calls), calls, key) as real <=
            cfg.capacity + cfg.rate * (LastTime(calls, 0.0) - calls[0].now)
  {
    hide Answers, Reference, Allowed, Unfilled, Earned, Forward, Unseen;
    var t := calls[0].now;
    OrderedIsUnseen(cfg, s, s.buckets, calls, t);
    AllowedAtMost(cfg, s, calls, key);
    ForwardOrdered(calls, key, None, t);
    EarnedGrows(cfg, Forward(calls, key, None), LastTime(calls, t) - t);
    EarnedIs(cfg, Forward(calls, key, None));
    EarnedIs(cfg, LastTime(calls, t) - t);
  }

  // ------------------------------------------------------- exactly who is refused

  /** A call is allowed when the key's last one was at least the time of one token
      ago, and when the key has not been seen, whatever the limiter dropped. */
  lemma {:induction false} WaitedLongEnough(cfg: Config, s: State, key: string, now: real)
    requires Sane(cfg) && Filled(cfg, s.buckets)
    requires key in s.buckets ==> now - s.buckets[key].last >= 1.0 / cfg.rate
    ensures Checked(cfg, s, key, now).0
  {
    if key in s.buckets {
      var waited := now - s.buckets[key].last;
      assert waited >= 0.0;
      assert waited * cfg.rate >= 1.0 / cfg.rate * cfg.rate == 1.0;
    }
  }

  /** The buckets after `calls`, none of them dropped. */
  function After(cfg: Config, m: Buckets, calls: seq<Call>): Buckets
    decreases |calls|
  {
    if calls == [] then m else After(cfg, Take(cfg, m, calls[0].key, calls[0].now).1, calls[1..])
  }

  lemma {:induction false} AfterOne(cfg: Config, m: Buckets, calls: seq<Call>, i: nat)
    requires i < |calls|
    ensures |Reference(cfg, m, calls)| == |calls|
    ensures var t := Take(cfg, After(cfg, m, calls[..i]), calls[i].key, calls[i].now);
            Reference(cfg, m, calls)[i] == t.0 && After(cfg, m, calls[..i + 1]) == t.1
    decreases i
  {
    hide Take;
    ReferenceLength(cfg, m, calls);
    if i == 0 {
      assert calls[..1][1..] == [];
    } else {
      AfterOne(cfg, Take(cfg, m, calls[0].key, calls[0].now).1, calls[1..], i - 1);
      assert calls[..i][1..] == calls[1..][..i - 1] && calls[..i + 1][1..] == calls[1..][..i];
    }
  }

  /** The most `key` can have left at `now`, had its bucket been full at its call
      `j`: what that leaves of the grants in `calls[j..i]`. */
  function LeftSince(cfg: Config, answers: seq<bool>, calls: seq<Call>, key: string, j: nat, i: nat, now: real): real
    requires |answers| == |calls| && j <= i <= |calls| && j < |calls|
  {
    cfg.capacity + cfg.rate * (now - calls[j].now) - Allowed(answers[j..i], calls[j..i], key) as real
  }

  lemma {:induction false} AllowedSnoc(answers: seq<bool>, calls: seq<Call>, key: string, j: nat, i: nat)
    requires |answers| == |calls| && j <= i < |calls|
    ensures Allowed(answers[j..i + 1], calls[j..i + 1], key) ==
            Allowed(answers[j..i], calls[j..i], key) + (if answers[i] && calls[i].key == key then 1 else 0)
    decreases i - j
  {
    if j == i {
      assert answers[j..i + 1][1..] == [] && calls[j..i + 1][1..] == [] && calls[j..i] == [];
    } else {
      AllowedSnoc(answers, calls, key, j + 1, i);
      assert answers[j..i + 1][1..] == answers[j + 1..i + 1] && calls[j..i + 1][1..] == calls[j + 1..i + 1];
      assert answers[j..i][1..] == answers[j + 1..i] && calls[j..i][1..] == calls[j + 1..i];
    }
  }

  /** The bucket of `key` after `i` calls holds the least that any of its calls
      leaves it. */
  ghost predicate Explained(cfg: Config, answers: seq<bool>, calls: seq<Call>, key: string, i: nat, m: Buckets)
    requires |answers| == |calls| && i <= |calls|
  {
    && (key in m <==> exists j :: 0 <= j < i && calls[j].key == key)
    && (key in m ==>
          && (forall j :: 0 <= j < i && calls[j].key == key ==>
                            calls[j].now <= m[key].last &&
                            m[key].tokens <= LeftSince(cfg, answers, calls, key, j, i, m[key].last))
          && (exists j :: 0 <= j < i && calls[j].key == key && m[key].last <= calls[i - 1].now &&
                          m[key].tokens == LeftSince(cfg, answers, calls, key, j, i, m[key].last)))
  }

  lemma {:induction false} LeftLater(cfg: Config, answers: seq<bool>, calls: seq<Call>, key: string, j: nat, i: nat,
                                     last: real, now: real)
    requires |answers| == |calls| && j <= i < |calls|
    ensures LeftSince(cfg, answers, calls, key, j, i, now) ==
            LeftSince(cfg, answers, calls, key, j, i, last) + Earned(cfg, now - last)
    ensures LeftSince(cfg, answers, calls, key, j, i + 1, now) ==
            LeftSince(cfg, answers, calls, key, j, i, now) - (if answers[i] && calls[i].key == key then 1.0 else 0.0)
  {
    hide Allowed;
    AllowedSnoc(answers, calls, key, j, i);
    EarnedIs(cfg, now - last);
    assert cfg.rate * (now - calls[j].now) == cfg.rate * (last - calls[j].now) + cfg.rate * (now - last);
  }

  /** One more call keeps every bucket explained. */
  lemma {:induction false} ExplainedOther(cfg: Config, answers: seq<bool>, calls: seq<Call>, key: string, i: nat,
                                          m: Buckets, m': Buckets)
    requires |answers| == |calls| && i < |calls| && Ordered(calls, calls[0].now) && calls[i].key != key
    requires Explained(cfg, answers, calls, key, i, m)
    requires (key in m' <==> key in m) && (key in m ==> m'[key] == m[key])
    ensures Explained(cfg, answers, calls, key, i + 1, m')
  {
    hide LeftSince;
    if key in m {
      forall j | 0 <= j < i
        ensures LeftSince(cfg, answers, calls, key, j, i + 1, m[key].last) ==
                LeftSince(cfg, answers, calls, key, j, i, m[key].last)
      {
        LeftLater(cfg, answers, calls, key, j, i, m[key].last, m[key].last);
      }
      NothingEarned(cfg);
    }
  }

  /** At its i-th call `key` finds the least that its earlier calls leave it. */
  lemma {:induction false} FindsTheLeast(cfg: Config, answers: seq<bool>, calls: seq<Call>, i: nat, m: Buckets)
    requires |answers| == |calls| && i < |calls| && Ordered(calls, calls[0].now) && Sane(cfg)
    requires Explained(cfg, answers, calls, calls[i].key, i, m)
    ensures var key, now := calls[i].key, calls[i].now;
            var tokens := Available(cfg, m, key, now);
            && tokens <= cfg.capacity
            && (forall j :: 0 <= j < i && calls[j].key == key ==>
                              tokens <= LeftSince(cfg, answers, calls, key, j, i, now))
            && (tokens < cfg.capacity ==>
                  exists j :: 0 <= j < i && calls[j].key == key &&
                              tokens == LeftSince(cfg, answers, calls, key, j, i, now))
  {
    hide LeftSince, Earned;
    var key, now := calls[i].key, calls[i].now;
    if key in m {
      forall j | 0 <= j < i
        ensures LeftSince(cfg, answers, calls, key, j, i, now) ==
                LeftSince(cfg, answers, calls, key, j, i, m[key].last) + Earned(cfg, now - m[key].last)
      {
        LeftLater(cfg, answers, calls, key, j, i, m[key].last, now);
      }
      assert m[key].last <= calls[i - 1].now <= now;
    }
  }

  lemma {:induction false} LeftAtOnce(cfg: Config, answers: seq<bool>, calls: seq<Call>, i: nat)
    requires |answers| == |calls| && i < |calls|
    ensures var key := calls[i].key;
            LeftSince(cfg, answers, calls, key, i, i + 1, calls[i].now) ==
            cfg.capacity - (if answers[i] then 1.0 else 0.0)
  {
    AllowedSnoc(answers, calls, calls[i].key, i, i);
    assert calls[i..i] == [] && answers[i..i] == [];
  }

  lemma {:induction false} ExplainedOwn(cfg: Config, answers: seq<bool>, calls: seq<Call>, i: nat, m: Buckets)
    requires |answers| == |calls| && i < |calls| && Ordered(calls, calls[0].now) && Sane(cfg)
    requires Explained(cfg, answers, calls, calls[i].key, i, m)
    requires answers[i] == Take(cfg, m, calls[i].key, calls[i].now).0
    ensures Explained(cfg, answers, calls, calls[i].key, i + 1, Take(cfg, m, calls[i].key, calls[i].now).1)
  {
    hide LeftSince, Available;
    var key, now := calls[i].key, calls[i].now;
    var m' := Take(cfg, m, key, now).1;
    FindsTheLeast(cfg, answers, calls, i, m);
    LeftAtOnce(cfg, answers, calls, i);
    forall j | 0 <= j < i
      ensures LeftSince(cfg, answers, calls, key, j, i + 1, now) ==
              LeftSince(cfg, answers, calls, key, j, i, now) - (if answers[i] then 1.0 else 0.0)
    {
      LeftLater(cfg, answers, calls, key, j, i, now, now);
    }
    assert m'[key].last == now;
    if Available(cfg, m, key, now) < cfg.capacity {
      var j :| 0 <= j < i && calls[j].key == key &&
               Available(cfg, m, key, now) == LeftSince(cfg, answers, calls, key, j, i, now);
      assert m'[key].tokens == LeftSince(cfg, answers, calls, key, j, i + 1, now);
    } else {
      assert m'[key].tokens == LeftSince(cfg, answers, calls, key, i, i + 1, now);
    }
  }

  lemma {:induction false} AlwaysExplained(cfg: Config, calls: seq<Call>, key: string, i: nat)
    requires Sane(cfg) && i <= |calls| && calls != [] && Ordered(calls, calls[0].now)
    ensures |Reference(cfg, map[], calls)| == |calls|
    ensures Explained(cfg, Reference(cfg, map[], calls), calls, key, i, After(cfg, map[], calls[..i]))
  {
    hide Explained, Take, Reference;
    ReferenceLength(cfg, map[], calls);
    var answers := Reference(cfg, map[], calls);
    if i == 0 {
      NothingYet(cfg, answers, calls, key);
    } else {
      AlwaysExplained(cfg, calls, key, i - 1);
      AfterOne(cfg, map[], calls, i - 1);
      var m := After(cfg, map[], calls[..i - 1]);
      if calls[i - 1].key == key {
        ExplainedOwn(cfg, answers, calls, i - 1, m);
      } else {
        TakesOwn(cfg, m, calls[i - 1].key, calls[i - 1].now, key);
        ExplainedOther(cfg, answers, calls, key, i - 1, m, After(cfg, map[], calls[..i]));
      }
    }
  }

  lemma {:induction false} NothingYet(cfg: Config, answers: seq<bool>, calls: seq<Call>, key: string)
    requires |answers| == |calls|
    ensures Explained(cfg, answers, calls, key, 0, map[])
  {
  }

  lemma {:induction false} TakesOwn(cfg: Config, m: Buckets, key: string, now: real, other: string)
    requires key != other
    ensures var m' := Take(cfg, m, key, now).1; (other in m' <==> other in m) && (other in m ==> m'[other] == m[other])
  {
  }

  lemma {:induction false} RefusedFrom(cfg: Config, answers: seq<bool>, calls: seq<Call>, i: nat, m: Buckets)
    requires |answers| == |calls| && i < |calls| && Ordered(calls, calls[0].now) && Sane(cfg)
    requires Explained(cfg, answers, calls, calls[i].key, i, m)
    requires answers[i] == Take(cfg, m, calls[i].key, calls[i].now).0
    ensures !answers[i] <==>
            exists j :: 0 <= j < i && calls[j].key == calls[i].key &&
                        LeftSince(cfg, answers, calls, calls[i].key, j, i, calls[i].now) < 1.0
  {
    hide LeftSince, Available, Explained;
    FindsTheLeast(cfg, answers, calls, i, m);
  }

  /** One more grant would be more than capacity + rate * (the seconds since the
      j-th call). */
  ghost predicate Overdrawn(cfg: Config, answers: seq<bool>, calls: seq<Call>, j: nat, i: nat)
    requires |answers| == |calls| && j <= i < |calls|
  {
    (Allowed(answers[j..i], calls[j..i], calls[i].key) + 1) as real >
    cfg.capacity + cfg.rate * (calls[i].now - calls[j].now)
  }

  lemma {:induction false} OverdrawnIs(cfg: Config, answers: seq<bool>, calls: seq<Call>, j: nat, i: nat)
    requires |answers| == |calls| && j <= i < |calls|
    ensures Overdrawn(cfg, answers, calls, j, i) <==>
            LeftSince(cfg, answers, calls, calls[i].key, j, i, calls[i].now) < 1.0
  {
    hide Allowed;
  }

  /** Exactly who is refused, for calls in time order on a new limiter: a call that
      would overdraw what its key has had since one of its earlier calls. */
  lemma {:induction false} RefusedIsExact(cfg: Config, next: nat, calls: seq<Call>, i: nat)
    requires Sane(cfg) && i < |calls| && Ordered(calls, calls[0].now)
    ensures var answers := Answers(cfg, State(map[], next), calls);
            && |answers| == |calls|
            && (!answers[i] <==>
                exists j :: 0 <= j < i && calls[j].key == calls[i].key && Overdrawn(cfg, answers, calls, j, i))
  {
    hide Answers, Reference, Unseen, Explained, Take, After, Overdrawn, LeftSince;
    var s := State(map[], next);
    OrderedIsUnseen(cfg, s, map[], calls, calls[0].now);
    EvictionUnobservable(cfg, s, map[], calls);
    var answers := Answers(cfg, s, calls);
    AlwaysExplained(cfg, calls, calls[i].key, i);
    AfterOne(cfg, map[], calls, i);
    RefusedFrom(cfg, answers, calls, i, After(cfg, map[], calls[..i]));
    forall j | 0 <= j < i
      ensures Overdrawn(cfg, answers, calls, j, i) <==>
              LeftSince(cfg, answers, calls, calls[i].key, j, i, calls[i].now) < 1.0
    {
      OverdrawnIs(cfg, answers, calls, j, i);
    }
  }

  /** A call at an older time moves `last` back and the same seconds are earned
      again: two grants within no time at all, which is what the bound over the
      key's own clock allows. */
  lemma {:induction false} OutOfOrderOvergrants()
    ensures var cfg, calls := Config(1.0, 1.0, MAX_KEYS), [Call("k", 10.0), Call("k", 9.0), Call("k", 10.0)];
            && Answers(cfg, State(map[], MAX_KEYS), calls) == [true, false, true]
            && Forward(calls, "k", None) == 1.0
  {
    hide Answers, Available, Unfilled;
    var cfg, a, b := Config(1.0, 1.0, MAX_KEYS), Call("k", 10.0), Call("k", 9.0);
    var s1, s2 := State(map["k" := Bucket(0.0, 10.0)], MAX_KEYS), State(map["k" := Bucket(0.0, 9.0)], MAX_KEYS);
    FirstCall(cfg, State(map[], MAX_KEYS), "k", 10.0);
    BackAndForth(cfg, s1.buckets, s2.buckets);
    assert s1.buckets["k" := Bucket(0.0, 9.0)] == s2.buckets;
    assert Checked(cfg, s1, "k", 9.0) == (false, s2) && Checked(cfg, s2, "k", 10.0).0;
    hide Checked;
    AnswersThree(cfg, State(map[], MAX_KEYS), s1, s2, a, b, a);
    assert [a, b, a][1..] == [b, a] && [b, a][1..] == [a] && [a][1..] == [];
    assert Forward([a], "k", Some(9.0)) == 1.0;
    assert Forward([b, a], "k", Some(10.0)) == 1.0;
  }

  lemma {:induction false} BackAndForth(cfg: Config, m1: Buckets, m2: Buckets)
    requires cfg == Config(1.0, 1.0, MAX_KEYS) && m1 == map["k" := Bucket(0.0, 10.0)]
    requires m2 == map["k" := Bucket(0.0, 9.0)]
    ensures Available(cfg, m1, "k", 9.0) == 0.0 && Available(cfg, m2, "k", 10.0) == 1.0
  {
    assert Earned(cfg, 0.0) == 0.0 && Earned(cfg, 1.0) == 1.0;
  }

  // ------------------------------------------------------------- bounded size

  lemma {:induction false} KeptIsSmaller(cfg: Config, m: Buckets, now: real)
    ensures |Unfilled(cfg, m, now)| <= |m|
  {
    SubsetSize(Unfilled(cfg, m, now).Keys, m.Keys);
  }

  /** Every call, at any time, keeps the map within the next cleanup's threshold
      and the buckets filled at most to capacity. */
  lemma {:induction false} SizeIsBounded(cfg: Config, s: State, key: string, now: real)
    requires Sane(cfg) && |s.buckets| <= s.nextCleanup && Filled(cfg, s.buckets)
    ensures var s' := Checked(cfg, s, key, now).1;
            |s'.buckets| <= s'.nextCleanup && Filled(cfg, s'.buckets)
  {
    hide Earned, Available;
    var kept := if Cleans(s, key) then Unfilled(cfg, s.buckets, now) else s.buckets;
    KeptIsSmaller(cfg, s.buckets, now);
    AvailableFits(cfg, kept, key, now);
    var b := Take(cfg, kept, key, now).1[key];
    assert kept[key := b].Keys == kept.Keys + {key};
    assert Take(cfg, kept, key, now).1 == kept[key := b];
    assert key in kept ==> kept.Keys + {key} == kept.Keys;
  }
}
