/** The fetch pipeline as a protocol: a hash stage, `n` workers, a reorder
    stage and a consumer, each taking atomic steps in any order. */
module Fetch {
  import opened Types

  const HASH_BATCH: nat := 1000

  /** What is delivered: the block at a height, or an error. */
  datatype Item = Good(h: nat) | Bad

  /** The hash stage: about to look hashes up, handing out jobs up to `end`, or gone. */
  datatype HashStage = Lookup | Handing(end: nat) | HashGone

  /** A worker: idle, waiting at the window with a job, fetching, or gone. */
  datatype Worker = Idle | Held(h: nat) | Fetching(h: nat) | Gone

  /** The reorder stage: waiting for `next`, holding an item to send, having
      sent it, or gone. */
  datatype Deliver = Waiting | Hand(item: Item) | Sent(failed: bool) | DeliverGone

  datatype State = State(
    next: nat,
    ready: map<nat, Item>,
    done: bool,
    stop: bool,
    hash: HashStage,
    /** Next height the hash stage hands out. */
    sent: nat,
    jobs: seq<nat>,
    workers: seq<Worker>,
    deliver: Deliver,
    /** Everything sent to the consumer, and how much of it was received. */
    out: seq<Item>,
    got: nat,
    dropped: bool)

  predicate Halted(s: State) {
    s.done || s.stop
  }

  function Window(s: State): nat {
    2 * |s.workers|
  }

  ghost predicate Init(s: State, from: nat, to: nat, n: nat) {
    && n >= 1
    && |s.workers| == n && (forall i :: 0 <= i < n ==> s.workers[i] == Idle)
    && s == State(from, map[], to < from, false, Lookup, from, [], s.workers, Waiting, [], 0, false)
  }

  datatype Event =
    | HashOk | HashErr | HashSend | HashQuit
    | WorkerTake(i: nat) | WorkerStart(i: nat) | WorkerPut(i: nat, ok: bool) | WorkerQuit(i: nat)
    | DeliverTake | DeliverSend | DeliverAdvance | DeliverQuit
    | Receive | Stop | Drop

  /** A hash lookup or a fetch went wrong. */
  predicate Failure(e: Event) {
    e == HashErr || (e.WorkerPut? && !e.ok)
  }

  function Min(a: nat, b: nat): nat {
    if a < b then a else b
  }

  ghost predicate HashNext(s: State, e: Event, s': State, to: nat)
    requires e.HashOk? || e.HashErr? || e.HashSend? || e.HashQuit?
  {
    match e
    case HashOk =>
      && s.hash == Lookup && s.sent <= to
      && s' == s.(hash := Handing(s.sent + Min(to - s.sent + 1, HASH_BATCH)))
    case HashErr =>
      && s.hash == Lookup && s.sent <= to
      && s' == s.(hash := HashGone, ready := s.ready[s.sent := Bad])
    case HashSend =>
      && s.hash.Handing? && |s.jobs| < 2 * HASH_BATCH
      && s' == s.(jobs := s.jobs + [s.sent], sent := s.sent + 1, hash := if s.sent + 1 == s.hash.end then Lookup
               else s.hash)
    case HashQuit =>
      && ((s.hash == Lookup && s.sent > to) || (s.hash.Handing? && Halted(s)))
      && s' == s.(hash := HashGone)
  }

  ghost predicate WorkerNext(s: State, e: Event, s': State)
    requires e.WorkerTake? || e.WorkerStart? || e.WorkerPut? || e.WorkerQuit?
  {
    && e.i < |s.workers|
    && var w := s.workers[e.i];
    match e
    case WorkerTake(i) =>
      && w == Idle && s.jobs != []
      && s' == s.(jobs := s.jobs[1..], workers := s.workers[i := Held(s.jobs[0])])
    case WorkerStart(i) =>
      && w.Held? && w.h < s.next + Window(s) && !Halted(s)
      && s' == s.(workers := s.workers[i := Fetching(w.h)])
    case WorkerPut(i, ok) =>
      && w.Fetching?
      && s' == s.(workers := s.workers[i := Idle], ready := s.ready[w.h := if ok then Good(w.h) else Bad])
    case WorkerQuit(i) =>
      && (w == Idle || w.Held?)
      && (Halted(s) || (w == Idle && s.jobs == [] && s.hash == HashGone))
      && s' == s.(workers := s.workers[i := Gone])
  }

  ghost predicate DeliverNext(s: State, e: Event, s': State, to: nat)
    requires e.DeliverTake? || e.DeliverSend? || e.DeliverAdvance? || e.DeliverQuit?
  {
    match e
    case DeliverTake =>
      && s.deliver == Waiting && !Halted(s) && s.next in s.ready
      && s' == s.(deliver := Hand(s.ready[s.next]), ready := s.ready - {s.next})
    case DeliverSend =>
      && s.deliver.Hand? && s.got <= |s.out| < s.got + 4 * |s.workers| && !s.dropped
      && s' == s.(deliver := Sent(s.deliver.item == Bad), out := s.out + [s.deliver.item])
    case DeliverAdvance =>
      && s.deliver.Sent?
      && s' == s.(deliver := Waiting, next := s.next + 1, done := s.done || s.deliver.failed || s.next + 1 > to)
    case DeliverQuit =>
      && ((s.deliver == Waiting && Halted(s)) || (s.deliver.Hand? && (s.stop || s.dropped)))
      && s' == s.(deliver := DeliverGone, done := true)
  }

  ghost predicate Next(s: State, e: Event, s': State, to: nat) {
    match e
    case HashOk => HashNext(s, e, s', to)
    case HashErr => HashNext(s, e, s', to)
    case HashSend => HashNext(s, e, s', to)
    case HashQuit => HashNext(s, e, s', to)
    case WorkerTake(_) => WorkerNext(s, e, s')
    case WorkerStart(_) => WorkerNext(s, e, s')
    case WorkerPut(_, _) => WorkerNext(s, e, s')
    case WorkerQuit(_) => WorkerNext(s, e, s')
    case DeliverTake => DeliverNext(s, e, s', to)
    case DeliverSend => DeliverNext(s, e, s', to)
    case DeliverAdvance => DeliverNext(s, e, s', to)
    case DeliverQuit => DeliverNext(s, e, s', to)
    case Receive => s.got < |s.out| && s' == s.(got := s.got + 1)
    case Stop => !s.stop && s' == s.(stop := true)
    case Drop => !s.dropped && s' == s.(dropped := true)
  }

  // -------------------------------------------------------------- invariants

  function Taken(s: State): int {
    s.sent - |s.jobs|
  }

  /** The reorder stage has the item of height `next` in hand. */
  predicate InHand(s: State) {
    s.deliver.Hand? || s.deliver.Sent?
  }

  predicate Has(w: Worker) {
    w.Held? || w.Fetching?
  }

  /** Items sent so far are the heights from `from` on, good except perhaps the last. */
  ghost predicate InOrder(out: seq<Item>, from: nat) {
    forall i :: 0 <= i < |out| ==> out[i] == Good(from + i) || (i == |out| - 1 && out[i] == Bad)
  }

  ghost predicate AllGood(out: seq<Item>, from: nat) {
    forall i :: 0 <= i < |out| ==> out[i] == Good(from + i)
  }

  ghost predicate OutOk(s: State, from: nat) {
    && InOrder(s.out, from)
    && s.got <= |s.out|
    && from <= s.next
    && match s.deliver
       case Waiting => |s.out| == s.next - from && (AllGood(s.out, from) || s.done)
       case Hand(item) => |s.out| == s.next - from && AllGood(s.out, from) && (item == Bad || item == Good(s.next))
       case Sent(failed) => |s.out| == s.next - from + 1 && s.out[|s.out| - 1] == (if failed then Bad else Good(s.next))
       case DeliverGone => |s.out| == s.next - from && s.done
  }

  ghost predicate JobsOk(s: State, from: nat, to: nat) {
    && from <= Taken(s)
    && (forall i :: 0 <= i < |s.jobs| ==> s.jobs[i] == Taken(s) + i)
    && (s.sent <= to + 1 || s.sent == from)
    && (s.hash.Handing? ==> s.sent < s.hash.end <= to + 1)
  }

  /** What is delivered next was handed to a worker, or is the height whose
      hash lookup failed. */
  ghost predicate NextOk(s: State) {
    && (s.next <= Taken(s) || (s.hash == HashGone && s.jobs == [] && s.next == s.sent + 1))
    && (InHand(s) ==> s.next < Taken(s) ||
                      (s.hash == HashGone && s.jobs == [] && s.next == s.sent &&
                       (s.deliver == Hand(Bad) || s.deliver == Sent(true))))
  }

  /** Heights in flight: each above what is delivered, in one place only. */
  ghost predicate FlightOk(s: State) {
    && (forall i :: 0 <= i < |s.workers| && Has(s.workers[i]) ==>
                      s.next <= s.workers[i].h < Taken(s) && s.workers[i].h !in s.ready &&
                      (InHand(s) ==> s.workers[i].h != s.next))
    && (forall i, j :: 0 <= i < j < |s.workers| && Has(s.workers[i]) && Has(s.workers[j]) ==>
                         s.workers[i].h != s.workers[j].h)
    && (forall h :: h in s.ready ==> s.next <= h && (InHand(s) ==> h != s.next))
    && (forall h :: h in s.ready ==> h < Taken(s) || (h == s.sent && s.hash == HashGone && s.ready[h] == Bad))
    && (forall h :: h in s.ready ==> s.ready[h] == Bad || s.ready[h] == Good(h))
  }

  /** Fetched and undelivered blocks lie within the window. */
  ghost predicate WindowOk(s: State) {
    && (forall i :: 0 <= i < |s.workers| && s.workers[i].Fetching? ==> s.workers[i].h < s.next + Window(s))
    && (forall h :: h in s.ready && s.ready[h].Good? ==> h < s.next + Window(s))
  }

  ghost predicate AtWorker(s: State, h: nat) {
    exists i :: 0 <= i < |s.workers| && Has(s.workers[i]) && s.workers[i].h == h
  }

  /** Until the stream halts no height is lost. */
  ghost predicate NothingLost(s: State, to: nat) {
    !Halted(s) ==>
      && s.next <= to
      && (forall h :: s.next <= h < Taken(s) ==> h in s.ready || AtWorker(s, h) || (h == s.next && InHand(s)))
      && (s.hash == HashGone && s.sent <= to ==> s.sent in s.ready || (s.next == s.sent && InHand(s)))
      && (forall i :: 0 <= i < |s.workers| && s.workers[i] == Gone ==> s.hash == HashGone && s.jobs == [])
  }

  /** The stream ends by itself only when it is complete or failed. */
  ghost predicate EndOk(s: State, from: nat, to: nat) {
    s.done && !s.stop && !s.dropped ==> s.next > to || (s.out != [] && s.out[|s.out| - 1] == Bad)
  }

  ghost predicate Inv(s: State, from: nat, to: nat) {
    && |s.workers| >= 1
    && OutOk(s, from)
    && JobsOk(s, from, to)
    && NextOk(s)
    && FlightOk(s)
    && WindowOk(s)
    && NothingLost(s, to)
    && EndOk(s, from, to)
  }

  lemma {:induction false} OutKeeps(s: State, e: Event, s': State, from: nat, to: nat)
    requires OutOk(s, from) && FlightOk(s) && Next(s, e, s', to)
    ensures OutOk(s', from)
  {
    hide JobsOk;
    if e.DeliverTake? || e.DeliverSend? || e.DeliverAdvance? || e.DeliverQuit? {
      DeliverOut(s, e, s', from, to);
    } else {
      assert s'.out == s.out && s'.deliver == s.deliver && s'.next == s.next && (s.done ==> s'.done);
    }
  }

  lemma {:induction false} DeliverOut(s: State, e: Event, s': State, from: nat, to: nat)
    requires OutOk(s, from) && FlightOk(s) && (e.DeliverTake? || e.DeliverSend? || e.DeliverAdvance? || e.DeliverQuit?)
    requires DeliverNext(s, e, s', to)
    ensures OutOk(s', from)
  {
  }

  lemma {:induction false} JobsKeep(s: State, e: Event, s': State, from: nat, to: nat)
    requires JobsOk(s, from, to) && Next(s, e, s', to)
    ensures JobsOk(s', from, to)
    ensures Taken(s) <= Taken(s') && (e.WorkerTake? ==> s.jobs[0] == Taken(s) && Taken(s') == Taken(s) + 1)
    ensures !e.WorkerTake? ==> Taken(s') == Taken(s)
  {
  }

  predicate IsHash(e: Event) {
    e.HashOk? || e.HashErr? || e.HashSend? || e.HashQuit?
  }

  predicate IsWorker(e: Event) {
    e.WorkerTake? || e.WorkerStart? || e.WorkerPut? || e.WorkerQuit?
  }

  predicate IsDeliver(e: Event) {
    e.DeliverTake? || e.DeliverSend? || e.DeliverAdvance? || e.DeliverQuit?
  }

  lemma {:induction false} NextKeeps(s: State, e: Event, s': State, from: nat, to: nat)
    requires NextOk(s) && FlightOk(s) && JobsOk(s, from, to) && Next(s, e, s', to)
    ensures NextOk(s')
  {
    JobsKeep(s, e, s', from, to);
  }

  /** A failed lookup leaves its error for the first height not handed out. */
  lemma {:induction false} HashErrFlight(s: State, s': State, from: nat, to: nat)
    requires FlightOk(s) && NextOk(s) && JobsOk(s, from, to) && HashNext(s, HashErr, s', to)
    ensures FlightOk(s')
  {
    hide JobsOk;
    assert s.next <= Taken(s) <= s.sent && s.sent !in s.ready;
  }

  lemma {:induction false} HashFlight(s: State, e: Event, s': State, from: nat, to: nat)
    requires FlightOk(s) && NextOk(s) && JobsOk(s, from, to) && IsHash(e) && HashNext(s, e, s', to)
    ensures FlightOk(s')
  {
    hide JobsOk, NextOk;
    if e.HashErr? {
      HashErrFlight(s, s', from, to);
    } else {
      assert s'.workers == s.workers && s'.next == s.next && s'.deliver == s.deliver && s'.ready == s.ready &&
             Taken(s') == Taken(s);
    }
  }

  /** A worker that takes the oldest job. */
  lemma {:induction false} TakeFlight(s: State, i: nat, s': State, from: nat, to: nat)
    requires FlightOk(s) && NextOk(s) && JobsOk(s, from, to) && WorkerNext(s, WorkerTake(i), s')
    ensures FlightOk(s')
  {
    var h := s.jobs[0];
    assert h == Taken(s) && Taken(s') == h + 1;
    assert s.next <= h && h !in s.ready && (InHand(s) ==> h != s.next);
    assert forall k :: 0 <= k < |s.workers| && k != i ==> s'.workers[k] == s.workers[k];
  }

  /** A worker that changes state without taking a new height. */
  lemma {:induction false} SameFlight(s: State, i: nat, w: Worker, s': State)
    requires FlightOk(s) && i < |s.workers|
    requires !Has(w) || (Has(s.workers[i]) && w.h == s.workers[i].h)
    requires s' == s.(workers := s.workers[i := w])
    ensures FlightOk(s')
  {
    assert forall k :: 0 <= k < |s.workers| && k != i ==> s'.workers[k] == s.workers[k];
  }

  lemma {:induction false} PutFlight(s: State, i: nat, ok: bool, s': State)
    requires FlightOk(s) && WorkerNext(s, WorkerPut(i, ok), s')
    ensures FlightOk(s')
  {
    assert forall k :: 0 <= k < |s.workers| && k != i ==> s'.workers[k] == s.workers[k];
  }

  lemma {:induction false} WorkerFlight(s: State, e: Event, s': State, from: nat, to: nat)
    requires FlightOk(s) && NextOk(s) && JobsOk(s, from, to) && IsWorker(e) && WorkerNext(s, e, s')
    ensures FlightOk(s')
  {
    hide FlightOk, JobsOk, NextOk;
    match e
    case WorkerTake(i) => TakeFlight(s, i, s', from, to);
    case WorkerStart(i) => SameFlight(s, i, s'.workers[i], s');
    case WorkerPut(i, ok) => PutFlight(s, i, ok, s');
    case WorkerQuit(i) => SameFlight(s, i, s'.workers[i], s');
    case _ => assert false;
  }

  lemma {:induction false} DeliverFlight(s: State, e: Event, s': State, to: nat)
    requires FlightOk(s) && IsDeliver(e) && DeliverNext(s, e, s', to)
    ensures FlightOk(s')
  {
    assert s'.workers == s.workers && s'.hash == s.hash && Taken(s') == Taken(s) && s'.sent == s.sent;
    if e.DeliverAdvance? {
      assert InHand(s) && s'.next == s.next + 1;
    } else {
      assert s'.next == s.next;
    }
  }

  lemma {:induction false} WindowKeeps(s: State, e: Event, s': State, to: nat)
    requires WindowOk(s) && Next(s, e, s', to)
    ensures WindowOk(s')
  {
  }

  lemma {:induction false} AtWorkerKept(s: State, e: Event, s': State, to: nat, h: nat)
    requires Next(s, e, s', to) && AtWorker(s, h)
    ensures AtWorker(s', h) || (e.WorkerPut? && h in s'.ready) || Halted(s)
  {
    var i :| 0 <= i < |s.workers| && Has(s.workers[i]) && s.workers[i].h == h;
    assert IsWorker(e) && i != e.i ==> s'.workers[i] == s.workers[i];
    assert IsWorker(e) && i == e.i && e.WorkerStart? ==> s'.workers[i].h == h;
    assert !IsWorker(e) ==> s'.workers[i] == s.workers[i];
  }

  lemma {:induction false} LostKeeps(s: State, e: Event, s': State, from: nat, to: nat)
    requires NothingLost(s, to) && NextOk(s) && FlightOk(s) && JobsOk(s, from, to) && Next(s, e, s', to)
    ensures NothingLost(s', to)
  {
    if !Halted(s') {
      JobsKeep(s, e, s', from, to);
      forall h | s'.next <= h < Taken(s')
        ensures h in s'.ready || AtWorker(s', h) || (h == s'.next && InHand(s'))
      {
        if e.WorkerTake? && h == Taken(s) {
          assert s'.workers[e.i].h == h;
        } else if AtWorker(s, h) {
          AtWorkerKept(s, e, s', to, h);
        }
      }
      GoneKeeps(s, e, s', to);
    }
  }

  lemma {:induction false} GoneKeeps(s: State, e: Event, s': State, to: nat)
    requires Next(s, e, s', to) && !Halted(s')
    requires forall i :: 0 <= i < |s.workers| && s.workers[i] == Gone ==> s.hash == HashGone && s.jobs == []
    ensures forall i :: 0 <= i < |s'.workers| && s'.workers[i] == Gone ==> s'.hash == HashGone && s'.jobs == []
  {
  }

  lemma {:induction false} EndKeeps(s: State, e: Event, s': State, from: nat, to: nat)
    requires EndOk(s, from, to) && OutOk(s, from) && Next(s, e, s', to)
    ensures EndOk(s', from, to)
  {
  }

  /** Every step of every stage keeps the protocol's invariant. */
  lemma {:induction false} StepKeeps(s: State, e: Event, s': State, from: nat, to: nat)
    requires Inv(s, from, to) && Next(s, e, s', to)
    ensures Inv(s', from, to)
  {
    hide OutOk, JobsOk, NextOk, WindowOk, NothingLost, EndOk;
    OutKeeps(s, e, s', from, to);
    JobsKeep(s, e, s', from, to);
    NextKeeps(s, e, s', from, to);
    WindowKeeps(s, e, s', to);
    LostKeeps(s, e, s', from, to);
    EndKeeps(s, e, s', from, to);
    FlightKeeps(s, e, s', from, to);
    assert |s'.workers| == |s.workers|;
  }

  lemma {:induction false} FlightKeeps(s: State, e: Event, s': State, from: nat, to: nat)
    requires FlightOk(s) && NextOk(s) && JobsOk(s, from, to) && Next(s, e, s', to)
    ensures FlightOk(s')
  {
    hide NextOk, JobsOk, FlightOk, HashNext, WorkerNext, DeliverNext;
    if IsHash(e) {
      HashFlight(s, e, s', from, to);
    } else if IsWorker(e) {
      WorkerFlight(s, e, s', from, to);
    } else if IsDeliver(e) {
      DeliverFlight(s, e, s', to);
    } else {
      EnvironmentFlight(s, s');
    }
  }

  lemma {:induction false} EnvironmentFlight(s: State, s': State)
    requires FlightOk(s) && s'.workers == s.workers && s'.next == s.next && s'.ready == s.ready && s'.sent == s.sent
    requires s'.jobs == s.jobs
    requires s'.hash == s.hash && s'.deliver == s.deliver
    ensures FlightOk(s')
  {
  }

  // -------------------------------------------------------------- whole runs

  ghost predicate Run(run: seq<State>, from: nat, to: nat, n: nat) {
    && run != [] && Init(run[0], from, to, n)
    && forall i :: 0 <= i < |run| - 1 ==> Step(run[i], run[i + 1], to)
  }

  ghost predicate Step(s: State, s': State, to: nat) {
    exists e :: Next(s, e, s', to)
  }

  lemma {:induction false} RunOk(run: seq<State>, from: nat, to: nat, n: nat, i: nat)
    requires Run(run, from, to, n) && i < |run|
    ensures Inv(run[i], from, to) && |run[i].workers| == n
  {
    hide Inv, Next, Init;
    if i == 0 {
      assert Inv(run[0], from, to) && |run[0].workers| == n by { Started(run[0], from, to, n); }
    } else {
      RunOk(run, from, to, n, i - 1);
      var e :| Next(run[i - 1], e, run[i], to);
      StepKeeps(run[i - 1], e, run[i], from, to);
      SameWorkers(run[i - 1], e, run[i], to);
    }
  }

  lemma {:induction false} Started(s: State, from: nat, to: nat, n: nat)
    requires Init(s, from, to, n)
    ensures Inv(s, from, to) && |s.workers| == n && s.next == from && s.deliver == Waiting
  {
  }

  lemma {:induction false} SameWorkers(s: State, e: Event, s': State, to: nat)
    requires Next(s, e, s', to)
    ensures |s'.workers| == |s.workers|
  {
  }

  /** Under every schedule the consumer is sent from, from + 1, ... with no gap
      and no repeat, and at most one error, as the last item after all the
      good ones; a fetched block waits within `2 * n` of the next to deliver. */
  lemma {:induction false} DeliversInOrder(run: seq<State>, from: nat, to: nat, n: nat, i: nat)
    requires Run(run, from, to, n) && i < |run|
    ensures InOrder(run[i].out, from)
    ensures from <= to ==> |run[i].out| <= to - from + 1
    ensures forall h :: h in run[i].ready && run[i].ready[h].Good? ==> run[i].next <= h < run[i].next + 2 * n
    ensures forall k :: 0 <= k < |run[i].workers| && run[i].workers[k].Fetching? ==>
                          run[i].next <= run[i].workers[k].h < run[i].next + 2 * n
  {
    hide Run;
    RunOk(run, from, to, n, i);
    OutBounded(run, from, to, n, i);
  }

  lemma {:induction false} OutBounded(run: seq<State>, from: nat, to: nat, n: nat, i: nat)
    requires Run(run, from, to, n) && i < |run|
    ensures from <= to ==> run[i].next <= to + 1 && (InHand(run[i]) ==> run[i].next <= to)
    ensures from <= to ==> |run[i].out| <= to - from + 1
  {
    hide FlightOk, WindowOk, NothingLost, Init;
    RunOk(run, from, to, n, i);
    if i == 0 {
      assert run[0].next == from && run[0].deliver == Waiting by { Started(run[0], from, to, n); }
    } else {
      OutBounded(run, from, to, n, i - 1);
      RunOk(run, from, to, n, i - 1);
      var e :| Next(run[i - 1], e, run[i], to);
      if from <= to {
        NextBounded(run[i - 1], e, run[i], from, to);
      }
    }
  }

  lemma {:induction false} NextBounded(s: State, e: Event, s': State, from: nat, to: nat)
    requires Inv(s, from, to) && Next(s, e, s', to)
    requires s.next <= to + 1 && (InHand(s) ==> s.next <= to)
    ensures s'.next <= to + 1 && (InHand(s') ==> s'.next <= to)
  {
    hide FlightOk, WindowOk, OutOk, JobsOk, NextOk, EndOk;
    if e.DeliverTake? {
      assert s.next <= to;
    }
  }

  // ---------------------------------------------------------------- no deadlock

  lemma {:induction false} JobStep(s: State, from: nat, to: nat) returns (e: Event, s': State)
    requires Inv(s, from, to) && !Halted(s) && s.deliver == Waiting && s.next !in s.ready && s.next < Taken(s)
    ensures Next(s, e, s', to) && s' != s && !e.Stop? && !e.Drop? && !Failure(e)
  {
    hide OutOk, WindowOk, EndOk;
    assert AtWorker(s, s.next);
    var i :| 0 <= i < |s.workers| && Has(s.workers[i]) && s.workers[i].h == s.next;
    if s.workers[i].Held? {
      e, s' := WorkerStart(i), s.(workers := s.workers[i := Fetching(s.next)]);
    } else {
      e, s' := WorkerPut(i, true), s.(workers := s.workers[i := Idle], ready := s.ready[s.next := Good(s.next)]);
    }
    assert s'.workers[i] != s.workers[i];
  }

  lemma {:induction false} IdleStep(s: State, from: nat, to: nat) returns (e: Event, s': State)
    requires Inv(s, from, to) && !Halted(s) && s.deliver == Waiting && s.next !in s.ready && s.next == Taken(s)
    requires s.jobs != []
    ensures Next(s, e, s', to) && s' != s && !e.Stop? && !e.Drop? && !Failure(e)
  {
    hide OutOk, WindowOk, EndOk;
    var w := s.workers[0];
    assert !Has(w);
    assert w == Idle;
    e, s' := WorkerTake(0), s.(jobs := s.jobs[1..], workers := s.workers[0 := Held(s.jobs[0])]);
    assert s'.workers[0] != s.workers[0];
  }

  lemma {:induction false} HashStep(s: State, from: nat, to: nat) returns (e: Event, s': State)
    requires Inv(s, from, to) && !Halted(s) && s.deliver == Waiting && s.next !in s.ready && s.next == Taken(s)
    requires s.jobs == []
    ensures Next(s, e, s', to) && s' != s && !e.Stop? && !e.Drop? && !Failure(e)
  {
    hide OutOk, WindowOk, EndOk, FlightOk;
    assert s.next == s.sent <= to;
    assert s.hash != HashGone;
    if s.hash == Lookup {
      e, s' := HashOk, s.(hash := Handing(s.sent + Min(to - s.sent + 1, HASH_BATCH)));
    } else {
      e, s' := HashSend, s.(jobs := s.jobs + [s.sent], sent := s.sent + 1, hash :=
               if s.sent + 1 == s.hash.end then Lookup else s.hash);
    }
  }

  lemma {:induction false} DeliverStep(s: State, from: nat, to: nat) returns (e: Event, s': State)
    requires Inv(s, from, to) && !Halted(s) && (s.deliver != Waiting || s.next in s.ready)
    ensures Next(s, e, s', to) && s' != s && !e.Stop? && !e.Drop? && !Failure(e)
  {
    hide WindowOk, EndOk, FlightOk, JobsOk, NothingLost, NextOk;
    match s.deliver
    case Waiting =>
      e, s' := DeliverTake, s.(deliver := Hand(s.ready[s.next]), ready := s.ready - {s.next});
    case Hand(item) =>
      if s.dropped {
        e, s' := DeliverQuit, s.(deliver := DeliverGone, done := true);
      } else if |s.out| < s.got + 4 * |s.workers| {
        e, s' := DeliverSend, s.(deliver := Sent(item == Bad), out := s.out + [item]);
      } else {
        e, s' := Receive, s.(got := s.got + 1);
      }
    case Sent(failed) =>
      e, s' := DeliverAdvance, s.(deliver := Waiting, next := s.next + 1, done := s.done || failed || s.next + 1 > to);
    case DeliverGone =>
      assert false;
  }

  /** No deadlock: until the stream halts, some stage (or the consumer, by
      receiving what was sent) can always step. */
  lemma {:induction false} NeverStuck(s: State, from: nat, to: nat) returns (e: Event, s': State)
    requires Inv(s, from, to) && !Halted(s)
    ensures Next(s, e, s', to) && s' != s && !e.Stop? && !e.Drop? && !Failure(e)
  {
    hide Next, OutOk, WindowOk, EndOk, FlightOk, JobsOk, NothingLost;
    if s.deliver != Waiting || s.next in s.ready {
      e, s' := DeliverStep(s, from, to);
    } else if s.next < Taken(s) {
      e, s' := JobStep(s, from, to);
    } else {
      NextHere(s, from, to);
      if s.jobs != [] {
        e, s' := IdleStep(s, from, to);
      } else {
        e, s' := HashStep(s, from, to);
      }
    }
  }

  lemma {:induction false} NextHere(s: State, from: nat, to: nat)
    requires Inv(s, from, to) && !Halted(s) && s.deliver == Waiting && s.next !in s.ready && s.next >= Taken(s)
    ensures s.next == Taken(s)
  {
    hide OutOk, WindowOk, EndOk;
  }

  /** When every worker waits at the window, the next height is fetched. */
  lemma {:induction false} WaitingMeansReady(s: State, from: nat, to: nat)
    requires Inv(s, from, to) && !Halted(s)
    requires forall i :: 0 <= i < |s.workers| ==> s.workers[i].Held? && s.workers[i].h >= s.next + Window(s)
    ensures s.next in s.ready || InHand(s)
  {
    hide OutOk, WindowOk, EndOk;
    assert s.workers[0].h < Taken(s);
  }

  // ------------------------------------------------------------- termination

  function WorkerWeight(w: Worker): nat {
    match w
    case Idle => 1
    case Held(_) => 8
    case Fetching(_) => 7
    case Gone => 0
  }

  function WorkersWeight(ws: seq<Worker>): nat {
    if ws == [] then 0 else WorkersWeight(ws[..|ws| - 1]) + WorkerWeight(ws[|ws| - 1])
  }

  function DeliverWeight(d: Deliver): nat {
    match d
    case Waiting => 1
    case Hand(_) => 5
    case Sent(_) => 2
    case DeliverGone => 0
  }

  function HashWeight(h: HashStage): nat {
    match h
    case Lookup => 7
    case Handing(_) => 1
    case HashGone => 0
  }

  function Unsent(s: State, to: nat): nat {
    if s.sent <= to then to + 1 - s.sent else 0
  }

  /** How many steps are left at most. */
  function Potential(s: State, to: nat): nat
    requires s.got <= |s.out|
  {
    16 * Unsent(s, to) + 8 * |s.jobs| + WorkersWeight(s.workers) + 5 * |s.ready| + DeliverWeight(s.deliver)
    + 2 * (|s.out| - s.got) + HashWeight(s.hash) + (if s.stop then 0 else 1) + (if s.dropped then 0 else 1)
  }

  lemma {:induction false} WeightUpdate(ws: seq<Worker>, i: nat, w: Worker)
    requires i < |ws|
    ensures WorkersWeight(ws[i := w]) == WorkersWeight(ws) - WorkerWeight(ws[i]) + WorkerWeight(w)
  {
    var ws' := ws[i := w];
    var last := |ws| - 1;
    if i == last {
      assert ws'[..last] == ws[..last];
    } else {
      WeightUpdate(ws[..last], i, w);
      assert ws'[..last] == ws[..last][i := w];
    }
  }

  lemma {:induction false} ReadyGrows(m: map<nat, Item>, h: nat, item: Item)
    ensures |m[h := item]| <= |m| + 1
    ensures h in m ==> |m - {h}| == |m| - 1
  {
    assert m[h := item].Keys == m.Keys + {h};
    assert (m - {h}).Keys == m.Keys - {h};
  }

  lemma {:induction false} HashDescends(s: State, e: Event, s': State, from: nat, to: nat)
    requires JobsOk(s, from, to) && s.got <= |s.out| && IsHash(e) && HashNext(s, e, s', to)
    ensures s'.got <= |s'.out| && Potential(s', to) < Potential(s, to)
  {
    hide WorkersWeight;
    ReadyGrows(s.ready, s.sent, Bad);
  }

  lemma {:induction false} WorkerDescends(s: State, e: Event, s': State, to: nat)
    requires s.got <= |s.out| && IsWorker(e) && WorkerNext(s, e, s')
    ensures s'.got <= |s'.out| && Potential(s', to) < Potential(s, to)
  {
    hide WorkersWeight, Potential;
    WeightUpdate(s.workers, e.i, s'.workers[e.i]);
    if e.WorkerPut? {
      ReadyGrows(s.ready, s.workers[e.i].h, s'.ready[s.workers[e.i].h]);
    }
    LighterDescends(s, s', to);
  }

  lemma {:induction false} LighterDescends(s: State, s': State, to: nat)
    requires s.got <= |s.out| && s' == s.(jobs := s'.jobs, workers := s'.workers, ready := s'.ready)
    requires 8 * |s'.jobs| + WorkersWeight(s'.workers) + 5 * |s'.ready| < 8 * |s.jobs| + WorkersWeight(s.workers) +
                                                                          5 * |s.ready|
    ensures Potential(s', to) < Potential(s, to)
  {
    hide WorkersWeight;
  }

  lemma {:induction false} DeliverDescends(s: State, e: Event, s': State, to: nat)
    requires s.got <= |s.out| && IsDeliver(e) && DeliverNext(s, e, s', to)
    ensures s'.got <= |s'.out| && Potential(s', to) < Potential(s, to)
  {
    hide WorkersWeight;
    ReadyGrows(s.ready, s.next, Bad);
  }

  /** Every step brings the pipeline closer to its end. */
  lemma {:induction false} EveryStepDescends(s: State, e: Event, s': State, from: nat, to: nat)
    requires Inv(s, from, to) && Next(s, e, s', to)
    ensures s'.got <= |s'.out| && Potential(s', to) < Potential(s, to)
  {
    hide FlightOk, WindowOk, NothingLost, EndOk, NextOk, JobsOk, HashNext, WorkerNext, DeliverNext, WorkersWeight,
      Unsent;
    if IsHash(e) {
      HashDescends(s, e, s', from, to);
    } else if IsWorker(e) {
      WorkerDescends(s, e, s', to);
    } else if IsDeliver(e) {
      DeliverDescends(s, e, s', to);
    } else {
      assert s'.sent == s.sent;
      UnsentSame(s, s', to);
    }
  }

  lemma {:induction false} UnsentSame(s: State, s': State, to: nat)
    requires s'.sent == s.sent
    ensures Unsent(s', to) == Unsent(s, to)
  {
  }

  lemma {:induction false} IdleWeight(ws: seq<Worker>)
    requires forall i :: 0 <= i < |ws| ==> ws[i] == Idle
    ensures WorkersWeight(ws) == |ws|
  {
    if ws != [] {
      IdleWeight(ws[..|ws| - 1]);
    }
  }

  lemma {:induction false} PotentialBounds(run: seq<State>, from: nat, to: nat, n: nat, i: nat)
    requires Run(run, from, to, n) && i < |run|
    ensures run[i].got <= |run[i].out| && run[0].got <= |run[0].out|
    ensures Potential(run[i], to) + i <= Potential(run[0], to)
  {
    hide Inv, Next, Init, Potential;
    RunOk(run, from, to, n, 0);
    assert run[0].got <= |run[0].out| by { OutCounts(run[0], from, to); }
    if i > 0 {
      PotentialBounds(run, from, to, n, i - 1);
      RunOk(run, from, to, n, i - 1);
      var e :| Next(run[i - 1], e, run[i], to);
      EveryStepDescends(run[i - 1], e, run[i], from, to);
    }
  }

  lemma {:induction false} OutCounts(s: State, from: nat, to: nat)
    requires Inv(s, from, to)
    ensures s.got <= |s.out|
  {
  }

  /** Every schedule is finite, with an explicit bound. */
  lemma {:induction false} RunsAreFinite(run: seq<State>, from: nat, to: nat, n: nat)
    requires Run(run, from, to, n)
    ensures |run| <= 16 * (if from <= to then to + 1 - from else 0) + n + 11
  {
    hide Inv, Next;
    PotentialBounds(run, from, to, n, |run| - 1);
    IdleWeight(run[0].workers);
  }

  ghost predicate Quiet(s: State, to: nat) {
    forall e, s' :: Next(s, e, s', to) ==> e.Stop? || e.Drop?
  }

  /** A run nobody stopped, once no stage can step, has delivered the whole
      range in order, or the good prefix and one error. */
  lemma {:induction false} CompletesOrFails(run: seq<State>, from: nat, to: nat, n: nat)
    requires Run(run, from, to, n) && from <= to
    requires var s := run[|run| - 1]; !s.stop && !s.dropped && Quiet(s, to)
    ensures var out := run[|run| - 1].out;
            && InOrder(out, from)
            && ((|out| == to - from + 1 && AllGood(out, from)) || (out != [] && out[|out| - 1] == Bad))
  {
    hide Next, FlightOk, WindowOk, NothingLost, JobsOk, NextOk, Init;
    var s := run[|run| - 1];
    RunOk(run, from, to, n, |run| - 1);
    if !Halted(s) {
      var e, s' := NeverStuck(s, from, to);
      assert false;
    }
    OutBounded(run, from, to, n, |run| - 1);
  }

  lemma {:induction false} HashCanGo(s: State, to: nat) returns (e: Event, s': State)
    requires Halted(s) && s.hash != HashGone
    ensures Next(s, e, s', to) && !e.Stop? && !e.Drop?
  {
    if s.hash == Lookup && s.sent <= to {
      e, s' := HashErr, s.(hash := HashGone, ready := s.ready[s.sent := Bad]);
    } else {
      e, s' := HashQuit, s.(hash := HashGone);
    }
  }

  lemma {:induction false} WorkerCanGo(s: State, to: nat, i: nat) returns (e: Event, s': State)
    requires Halted(s) && i < |s.workers| && s.workers[i] != Gone
    ensures Next(s, e, s', to) && !e.Stop? && !e.Drop?
  {
    var w := s.workers[i];
    if w.Fetching? {
      e, s' := WorkerPut(i, false), s.(workers := s.workers[i := Idle], ready := s.ready[w.h := Bad]);
    } else {
      e, s' := WorkerQuit(i), s.(workers := s.workers[i := Gone]);
    }
  }

  lemma {:induction false} DeliverCanGo(s: State, from: nat, to: nat) returns (e: Event, s': State)
    requires Inv(s, from, to) && Halted(s) && (s.deliver != DeliverGone || s.got < |s.out|)
    ensures Next(s, e, s', to) && !e.Stop? && !e.Drop?
  {
    hide JobsOk, NextOk, FlightOk, WindowOk, NothingLost, EndOk;
    if s.got < |s.out| {
      e, s' := Receive, s.(got := s.got + 1);
    } else if s.deliver.Sent? {
      e, s' := DeliverAdvance,
               s.(deliver := Waiting, next := s.next + 1, done := s.done || s.deliver.failed || s.next + 1 > to);
    } else if s.deliver.Hand? && !s.stop && !s.dropped {
      e, s' := DeliverSend, s.(deliver := Sent(s.deliver.item == Bad), out := s.out + [s.deliver.item]);
    } else {
      e, s' := DeliverQuit, s.(deliver := DeliverGone, done := true);
    }
  }

  /** When nothing can step any more every thread has ended, stopped or not,
      and the consumer has all that was sent. */
  lemma {:induction false} QuietIsGone(run: seq<State>, from: nat, to: nat, n: nat)
    requires Run(run, from, to, n) && Quiet(run[|run| - 1], to)
    ensures var s := run[|run| - 1];
            && s.hash == HashGone && s.deliver == DeliverGone && s.got == |s.out|
            && forall i :: 0 <= i < |s.workers| ==> s.workers[i] == Gone
  {
    hide Inv, Next, Init;
    var s := run[|run| - 1];
    RunOk(run, from, to, n, |run| - 1);
    if !Halted(s) {
      var e, s' := NeverStuck(s, from, to);
      assert false;
    }
    if s.hash != HashGone {
      var e, s' := HashCanGo(s, to);
      assert false;
    }
    OutCounts(s, from, to);
    if s.deliver != DeliverGone || s.got < |s.out| {
      var e, s' := DeliverCanGo(s, from, to);
      assert false;
    }
    forall i | 0 <= i < |s.workers|
      ensures s.workers[i] == Gone
    {
      if s.workers[i] != Gone {
        var e, s' := WorkerCanGo(s, to, i);
        assert false;
      }
    }
  }

  // ------------------------------------------------------ outcomes of fetches

  /** The events that make the steps of `run`. */
  ghost predicate Traced(run: seq<State>, es: seq<Event>, to: nat) {
    |run| == |es| + 1 && forall i :: 0 <= i < |es| ==> Next(run[i], es[i], run[i + 1], to)
  }

  /** Every run has its events. */
  lemma {:induction false} EventsOf(run: seq<State>, from: nat, to: nat, n: nat, i: nat) returns (es: seq<Event>)
    requires Run(run, from, to, n) && i < |run|
    ensures Traced(run[..i + 1], es, to)
  {
    hide Next;
    es := [];
    if i > 0 {
      var before := EventsOf(run, from, to, n, i - 1);
      assert Step(run[i - 1], run[i], to);
      var e :| Next(run[i - 1], e, run[i], to);
      es := before + [e];
      assert forall j :: 0 <= j < i ==> run[..i][j] == run[..i + 1][j];
    }
  }

  /** The k-th step is the end of a fetch of height `h`: its block, or an error if
      the fetch, or looking its hash up, failed. */
  ghost predicate Outcome(run: seq<State>, es: seq<Event>, k: nat, h: nat, item: Item)
    requires k < |es| && |run| == |es| + 1
  {
    || (es[k] == HashErr && run[k].sent == h && item == Bad)
    || (&& es[k].WorkerPut? && es[k].i < |run[k].workers| && run[k].workers[es[k].i] == Fetching(h)
        && item == if es[k].ok then Good(h) else Bad)
  }

  /** `item` is how a fetch of `h` ended before step `j`. */
  ghost predicate Fetched(run: seq<State>, es: seq<Event>, j: nat, h: nat, item: Item)
    requires |run| == |es| + 1 && j <= |es|
  {
    exists k :: 0 <= k < j && Outcome(run, es, k, h, item)
  }

  ghost predicate Sourced(run: seq<State>, es: seq<Event>, j: nat, from: nat)
    requires |run| == |es| + 1 && j <= |es|
  {
    var s := run[j];
    && (forall h :: h in s.ready ==> Fetched(run, es, j, h, s.ready[h]))
    && (s.deliver.Hand? ==> Fetched(run, es, j, s.next, s.deliver.item))
    && (forall p :: 0 <= p < |s.out| ==> Fetched(run, es, j, from + p, s.out[p]))
  }

  lemma {:induction false} FetchedLater(run: seq<State>, es: seq<Event>, j: nat, h: nat, item: Item)
    requires |run| == |es| + 1 && j < |es| && Fetched(run, es, j, h, item)
    ensures Fetched(run, es, j + 1, h, item)
  {
    hide Outcome;
  }

  lemma {:induction false} SourcedStep(run: seq<State>, es: seq<Event>, j: nat, from: nat, to: nat)
    requires Traced(run, es, to) && j < |es| && Inv(run[j], from, to) && Sourced(run, es, j, from)
    ensures Sourced(run, es, j + 1, from)
  {
    hide Fetched, JobsOk, NextOk, FlightOk, WindowOk, NothingLost, EndOk;
    var s, e, s' := run[j], es[j], run[j + 1];
    assert Next(s, e, s', to);
    forall h, item | Fetched(run, es, j, h, item)
      ensures Fetched(run, es, j + 1, h, item)
    {
      FetchedLater(run, es, j, h, item);
    }
    if e.WorkerPut? || e.HashErr? {
      var h := if e.HashErr? then s.sent else s.workers[e.i].h;
      PutIsOutcome(run, es, j, h, to);
    }
  }

  lemma {:induction false} PutIsOutcome(run: seq<State>, es: seq<Event>, j: nat, h: nat, to: nat)
    requires Traced(run, es, to) && j < |es|
    requires es[j] == HashErr ==> h == run[j].sent
    requires es[j].WorkerPut? ==> es[j].i < |run[j].workers| && run[j].workers[es[j].i] == Fetching(h)
    ensures es[j].WorkerPut? || es[j].HashErr? ==>
              h in run[j + 1].ready && Fetched(run, es, j + 1, h, run[j + 1].ready[h])
  {
    assert Next(run[j], es[j], run[j + 1], to);
    if es[j].WorkerPut? || es[j].HashErr? {
      assert Outcome(run, es, j, h, run[j + 1].ready[h]);
    }
  }

  lemma {:induction false} AlwaysSourced(run: seq<State>, es: seq<Event>, from: nat, to: nat, n: nat, j: nat)
    requires Run(run, from, to, n) && Traced(run, es, to) && j <= |es|
    ensures Sourced(run, es, j, from)
  {
    hide Run, Inv, Next, Fetched;
    RunOk(run, from, to, n, 0);
    if j == 0 {
      StartsEmpty(run, from, to, n);
    } else {
      AlwaysSourced(run, es, from, to, n, j - 1);
      RunOk(run, from, to, n, j - 1);
      SourcedStep(run, es, j - 1, from, to);
    }
  }

  lemma {:induction false} StartsEmpty(run: seq<State>, from: nat, to: nat, n: nat)
    requires Run(run, from, to, n)
    ensures run[0].ready == map[] && run[0].out == [] && run[0].deliver == Waiting
  {
  }

  /** What is delivered for a height is how its fetch ended. */
  lemma {:induction false} ItemsAreOutcomes(run: seq<State>, es: seq<Event>, from: nat, to: nat, n: nat, j: nat,
                                            p: nat)
    requires Run(run, from, to, n) && Traced(run, es, to) && j <= |es| && p < |run[j].out|
    ensures Fetched(run, es, j, from + p, run[j].out[p])
  {
    hide Run, Fetched;
    AlwaysSourced(run, es, from, to, n, j);
  }

  /** No fetch of `h` can end any more. */
  ghost predicate Over(s: State, h: nat) {
    (h < Taken(s) && !AtWorker(s, h)) || (s.hash == HashGone && s.sent <= h)
  }

  lemma {:induction false} OverAfter(run: seq<State>, es: seq<Event>, k: nat, h: nat, item: Item, from: nat, to: nat)
    requires Traced(run, es, to) && k < |es| && Inv(run[k], from, to) && Outcome(run, es, k, h, item)
    ensures Over(run[k + 1], h)
  {
    hide OutOk, NextOk, WindowOk, NothingLost, EndOk;
    assert Next(run[k], es[k], run[k + 1], to);
  }

  lemma {:induction false} OverStays(s: State, e: Event, s': State, h: nat, from: nat, to: nat)
    requires Inv(s, from, to) && Next(s, e, s', to) && Over(s, h)
    ensures Over(s', h)
  {
    hide OutOk, NextOk, WindowOk, NothingLost, EndOk;
  }

  lemma {:induction false} StillOver(run: seq<State>, es: seq<Event>, k: nat, j: nat, h: nat, from: nat, to: nat,
                                     n: nat)
    requires Run(run, from, to, n) && Traced(run, es, to) && k <= j <= |es| && Over(run[k], h)
    ensures Over(run[j], h)
    decreases j
  {
    hide Run, Inv, Next, Over;
    if k < j {
      StillOver(run, es, k, j - 1, h, from, to, n);
      RunOk(run, from, to, n, j - 1);
      OverStays(run[j - 1], es[j - 1], run[j], h, from, to);
    }
  }

  lemma {:induction false} OverHasNone(run: seq<State>, es: seq<Event>, k: nat, h: nat, item: Item, from: nat, to: nat)
    requires Traced(run, es, to) && k < |es| && Inv(run[k], from, to) && Outcome(run, es, k, h, item)
    ensures !Over(run[k], h)
  {
    hide OutOk, NextOk, WindowOk, NothingLost, EndOk;
    assert Next(run[k], es[k], run[k + 1], to);
  }

  /** The fetch of a height ends once. */
  lemma {:induction false} OneOutcome(run: seq<State>, es: seq<Event>, from: nat, to: nat, n: nat, h: nat,
                                      j: nat, a: Item, k: nat, b: Item)
    requires Run(run, from, to, n) && Traced(run, es, to) && j <= k < |es|
    requires Outcome(run, es, j, h, a) && Outcome(run, es, k, h, b)
    ensures j == k && a == b
  {
    if j < k {
      hide Run, Inv, Next, Over, Outcome, Traced;
      RunOk(run, from, to, n, j);
      RunOk(run, from, to, n, k);
      OverAfter(run, es, j, h, a, from, to);
      StillOver(run, es, j + 1, k, h, from, to, n);
      OverHasNone(run, es, k, h, b, from, to);
    }
  }

  lemma {:induction false} FailureOutcome(run: seq<State>, es: seq<Event>, from: nat, to: nat, n: nat, k: nat)
    returns (h: nat)
    requires Run(run, from, to, n) && Traced(run, es, to) && k < |es| && Failure(es[k])
    ensures Outcome(run, es, k, h, Bad) && from <= h <= to
  {
    hide Run, NextOk, WindowOk, NothingLost, EndOk;
    RunOk(run, from, to, n, k);
    assert Next(run[k], es[k], run[k + 1], to);
    h := if es[k].HashErr? then run[k].sent else run[k].workers[es[k].i].h;
  }

  lemma {:induction false} BadIsFailure(run: seq<State>, es: seq<Event>, j: nat, h: nat) returns (k: nat)
    requires |run| == |es| + 1 && j <= |es| && Fetched(run, es, j, h, Bad)
    ensures k < j && Failure(es[k])
  {
    k :| k < j && Outcome(run, es, k, h, Bad);
  }

  /** A run nobody stopped, once no stage can step, has delivered the whole range
      iff no hash lookup and no fetch failed in it. */
  lemma {:induction false} CompletesUnlessFailed(run: seq<State>, es: seq<Event>, from: nat, to: nat, n: nat)
    requires Run(run, from, to, n) && Traced(run, es, to) && from <= to
    requires var s := run[|run| - 1]; !s.stop && !s.dropped && Quiet(s, to)
    ensures var out := run[|run| - 1].out;
            (|out| == to - from + 1 && AllGood(out, from)) <==> forall k :: 0 <= k < |es| ==> !Failure(es[k])
  {
    hide Run, Quiet, Fetched, Outcome, Next, Failure;
    var out := run[|run| - 1].out;
    CompletesOrFails(run, from, to, n);
    if |out| == to - from + 1 && AllGood(out, from) {
      forall k | 0 <= k < |es|
        ensures !Failure(es[k])
      {
        if Failure(es[k]) {
          AllGoodNoFailure(run, es, from, to, n, k);
        }
      }
    } else {
      var p := |out| - 1;
      ItemsAreOutcomes(run, es, from, to, n, |es|, p);
      var k := BadIsFailure(run, es, |es|, from + p);
    }
  }

  lemma {:induction false} AllGoodNoFailure(run: seq<State>, es: seq<Event>, from: nat, to: nat, n: nat, k: nat)
    requires Run(run, from, to, n) && Traced(run, es, to) && k < |es| && Failure(es[k])
    ensures var out := run[|run| - 1].out; !(|out| == to - from + 1 && AllGood(out, from))
  {
    hide Run, Outcome, Next, Failure;
    var h := FailureOutcome(run, es, from, to, n, k);
    var out := run[|run| - 1].out;
    if |out| == to - from + 1 && AllGood(out, from) {
      ItemsAreOutcomes(run, es, from, to, n, |es|, h - from);
      var j :| 0 <= j < |es| && Outcome(run, es, j, h, Good(h));
      if j <= k {
        OneOutcome(run, es, from, to, n, h, j, Good(h), k, Bad);
      } else {
        OneOutcome(run, es, from, to, n, h, k, Bad, j, Good(h));
      }
    }
  }

  // ------------------------------------------------- bounds, and a run without errors

  /** The channels are bounded: at most 2000 jobs wait, and at most four items per
      worker wait for the consumer. */
  lemma {:induction false} ChannelsBounded(run: seq<State>, from: nat, to: nat, n: nat, i: nat)
    requires Run(run, from, to, n) && i < |run|
    ensures |run[i].jobs| <= 2000 && |run[i].out| <= run[i].got + 4 * n
  {
    hide Inv, Init, Next;
    RunOk(run, from, to, n, i);
    if i == 0 {
      assert run[0].jobs == [] && run[0].out == [] by { NothingSent(run[0], from, to, n); }
    } else {
      ChannelsBounded(run, from, to, n, i - 1);
      RunOk(run, from, to, n, i - 1);
      var e :| Next(run[i - 1], e, run[i], to);
      ChannelStep(run[i - 1], e, run[i], to);
    }
  }

  lemma {:induction false} NothingSent(s: State, from: nat, to: nat, n: nat)
    requires Init(s, from, to, n)
    ensures s.jobs == [] && s.out == []
  {
  }

  lemma {:induction false} ChannelStep(s: State, e: Event, s': State, to: nat)
    requires Next(s, e, s', to) && |s.jobs| <= 2000 && |s.out| <= s.got + 4 * |s.workers|
    ensures |s'.jobs| <= 2000 && |s'.out| <= s'.got + 4 * |s'.workers|
  {
  }

  /** Every thread has ended and the consumer has everything. */
  ghost predicate Ended(s: State) {
    && s.hash == HashGone && s.deliver == DeliverGone && s.got == |s.out|
    && forall i :: 0 <= i < |s.workers| ==> s.workers[i] == Gone
  }

  lemma {:induction false} EndedIsQuiet(s: State, to: nat)
    requires Ended(s)
    ensures Quiet(s, to)
  {
  }

  /** Nobody stopped it, and nothing went wrong. */
  ghost predicate Undisturbed(es: seq<Event>) {
    forall k :: 0 <= k < |es| ==> !es[k].Stop? && !es[k].Drop? && !Failure(es[k])
  }

  lemma {:induction false} StillRunning(run: seq<State>, es: seq<Event>, from: nat, to: nat, n: nat, j: nat)
    requires Run(run, from, to, n) && Traced(run, es, to) && Undisturbed(es) && j <= |es|
    ensures !run[j].stop && !run[j].dropped
  {
    if j > 0 {
      StillRunning(run, es, from, to, n, j - 1);
      assert Next(run[j - 1], es[j - 1], run[j], to);
    }
  }

  /** Undisturbed and done, it has delivered everything. */
  lemma {:induction false} DoneIsDelivered(run: seq<State>, es: seq<Event>, from: nat, to: nat, n: nat)
    requires Run(run, from, to, n) && Traced(run, es, to) && Undisturbed(es) && from <= to
    requires Halted(Last(run))
    ensures Last(run).next > to
  {
    hide Run, Next, Fetched, Failure;
    var s := Last(run);
    StillRunning(run, es, from, to, n, |es|);
    RunOk(run, from, to, n, |es|);
    EndsWell(s, from, to);
    if s.out != [] && s.out[|s.out| - 1] == Bad {
      ItemsAreOutcomes(run, es, from, to, n, |es|, |s.out| - 1);
      var k := BadIsFailure(run, es, |es|, from + |s.out| - 1);
      assert false;
    }
  }

  lemma {:induction false} EndsWell(s: State, from: nat, to: nat)
    requires Inv(s, from, to) && s.done && !s.stop && !s.dropped
    ensures s.next > to || (s.out != [] && s.out[|s.out| - 1] == Bad)
  {
    hide FlightOk, WindowOk, NothingLost, JobsOk, NextOk, OutOk;
  }

  /** What is left to do then is to end the threads. */
  lemma {:induction false} WindsDown(s: State, from: nat, to: nat) returns (e: Event, s': State)
    requires Inv(s, from, to) && Halted(s) && s.next > to && from <= to && !Ended(s) && !InHand(s)
    ensures Next(s, e, s', to) && !e.Stop? && !e.Drop? && !Failure(e)
  {
    hide WindowOk, NothingLost, EndOk;
    if s.hash != HashGone {
      e, s' := HashQuit, s.(hash := HashGone);
    } else if i :| 0 <= i < |s.workers| && s.workers[i] != Gone {
      assert !s.workers[i].Fetching?;
      e, s' := WorkerQuit(i), s.(workers := s.workers[i := Gone]);
    } else if s.got < |s.out| {
      e, s' := Receive, s.(got := s.got + 1);
    } else {
      assert s.deliver == Waiting;
      e, s' := DeliverQuit, s.(deliver := DeliverGone, done := true);
    }
  }

  lemma {:induction false} GoodStep(run: seq<State>, es: seq<Event>, from: nat, to: nat, n: nat)
    returns (e: Event, s': State)
    requires Run(run, from, to, n) && Traced(run, es, to) && Undisturbed(es) && from <= to && !Ended(Last(run))
    ensures Next(Last(run), e, s', to) && !e.Stop? && !e.Drop? && !Failure(e)
  {
    hide Run, Inv, Next, Failure, Ended;
    RunOk(run, from, to, n, |es|);
    StillRunning(run, es, from, to, n, |es|);
    if Halted(Last(run)) {
      DoneIsDelivered(run, es, from, to, n);
      OutBounded(run, from, to, n, |es|);
      e, s' := WindsDown(Last(run), from, to);
    } else {
      e, s' := NeverStuck(Last(run), from, to);
    }
  }

  lemma {:induction false} Finish(run: seq<State>, es: seq<Event>, from: nat, to: nat, n: nat)
    returns (run': seq<State>, es': seq<Event>)
    requires Run(run, from, to, n) && Traced(run, es, to) && Undisturbed(es) && from <= to
    ensures Run(run', from, to, n) && Traced(run', es', to) && Undisturbed(es') && Ended(Last(run'))
    decreases 16 * (to + 1 - from) + n + 11 - |run|
  {
    hide Init, Next, Failure, Ended;
    if Ended(Last(run)) {
      run', es' := run, es;
    } else {
      var e, s' := GoodStep(run, es, from, to, n);
      assert Step(Last(run), s', to);
      RunsAreFinite(run + [s'], from, to, n);
      run', es' := Finish(run + [s'], es + [e], from, to, n);
    }
  }

  /** For every range and every number of workers there is a run in which nothing
      fails, and it ends with the whole range delivered. */
  lemma {:induction false} CompleteRun(from: nat, to: nat, n: nat) returns (run: seq<State>, es: seq<Event>)
    requires n >= 1 && from <= to
    ensures Run(run, from, to, n) && Traced(run, es, to) && Undisturbed(es) && Ended(Last(run))
    ensures AllGood(Last(run).out, from) && |Last(run).out| == to - from + 1
  {
    var s := State(from, map[], to < from, false, Lookup, from, [], seq(n, _ => Idle), Waiting, [], 0, false);
    assert Init(s, from, to, n);
    hide Init, Next, Ended;
    run, es := Finish([s], [], from, to, n);
    StillRunning(run, es, from, to, n, |es|);
    EndedIsQuiet(Last(run), to);
    CompletesUnlessFailed(run, es, from, to, n);
  }
}
