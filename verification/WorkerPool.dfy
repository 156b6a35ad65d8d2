/**
 The fan-out pool that the engine builds four times: a feeder over an unbuffered jobs
 channel, `n` workers, a closer that waits for them, and a collector ranging over an
 unbuffered results channel, all of which a cancellation may strike at any moment.
 A rendezvous on a channel is one step; a schedule is a sequence of steps.
 */
module WorkerPool {
  import opened Wrappers
  import opened Sorting
  import Fanout

  datatype Worker<R> = Idle | Busy(sym: string) | Sending(sym: string, result: R) | Exited

  datatype Config<!R> = Config(syms: seq<string>, workers: nat, compute: string -> R)

  /** `feeding` is false once the jobs channel is closed. */
  datatype Pool<R> = Pool(
    next: nat, feeding: bool, workers: seq<Worker<R>>, resultsOpen: bool,
    got: seq<(string, R)>, collecting: bool, cancelled: bool)

  datatype Action<R> =
    | Feed(w: nat) | FeedDone | FeedAbort
    | Compute(w: nat, result: R) | Deliver(w: nat) | Exit(w: nat)
    | CloseResults | CollectDone | Cancel

  function Init<R>(cfg: Config<R>): Pool<R> {
    Pool(0, true, seq(cfg.workers, _ => Idle), true, [], true, false)
  }

  ghost predicate AllExited<R>(ws: seq<Worker<R>>) {
    forall i | 0 <= i < |ws| :: ws[i].Exited?
  }

  /** A lookup cut short by the cancellation may report anything; otherwise the result is the symbol's own. */
  ghost predicate Enabled<R>(cfg: Config<R>, s: Pool<R>, a: Action<R>) {
    match a
    case Feed(w) => s.feeding && s.next < |cfg.syms| && w < |s.workers| && s.workers[w].Idle?
    case FeedDone => s.feeding && s.next >= |cfg.syms|
    case FeedAbort => s.feeding && s.next < |cfg.syms| && s.cancelled
    case Compute(w, r) =>
      w < |s.workers| && s.workers[w].Busy? && (r == cfg.compute(s.workers[w].sym) || s.cancelled)
    case Deliver(w) => w < |s.workers| && s.workers[w].Sending? && s.collecting
    case Exit(w) => w < |s.workers| && s.workers[w].Idle? && !s.feeding
    case CloseResults => s.resultsOpen && AllExited(s.workers)
    case CollectDone => s.collecting && !s.resultsOpen
    case Cancel => !s.cancelled
  }

  ghost function Do<R>(cfg: Config<R>, s: Pool<R>, a: Action<R>): Pool<R>
    requires Enabled(cfg, s, a)
  {
    match a
    case Feed(w) => s.(workers := s.workers[w := Busy(cfg.syms[s.next])], next := s.next + 1)
    case FeedDone => s.(feeding := false)
    case FeedAbort => s.(feeding := false)
    case Compute(w, r) => s.(workers := s.workers[w := Sending(s.workers[w].sym, r)])
    case Deliver(w) =>
      s.(workers := s.workers[w := Idle], got := s.got + [(s.workers[w].sym, s.workers[w].result)])
    case Exit(w) => s.(workers := s.workers[w := Exited])
    case CloseResults => s.(resultsOpen := false)
    case CollectDone => s.(collecting := false)
    case Cancel => s.(cancelled := true)
  }

  /** The state a schedule leads to, if every one of its steps is possible. */
  ghost function Exec<R>(cfg: Config<R>, acts: seq<Action<R>>): Option<Pool<R>> {
    if acts == [] then Some(Init(cfg))
    else
      match Exec(cfg, acts[..|acts| - 1])
      case None => None
      case Some(s) => if Enabled(cfg, s, acts[|acts| - 1]) then Some(Do(cfg, s, acts[|acts| - 1])) else None
  }

  /** The collector has returned. */
  ghost predicate Final<R>(s: Pool<R>) {
    !s.collecting
  }

  // ---- Where every symbol is: counts of one symbol handed out, in flight and delivered ----

  ghost function One(b: bool): nat { if b then 1 else 0 }

  ghost function HandedOut(syms: seq<string>, n: nat, x: string): nat
    requires n <= |syms|
  {
    if n == 0 then 0 else HandedOut(syms, n - 1, x) + One(syms[n - 1] == x)
  }

  ghost function Holds<R>(w: Worker<R>, x: string): nat {
    One((w.Busy? || w.Sending?) && w.sym == x)
  }

  ghost function InFlight<R>(ws: seq<Worker<R>>, n: nat, x: string): nat
    requires n <= |ws|
  {
    if n == 0 then 0 else InFlight(ws, n - 1, x) + Holds(ws[n - 1], x)
  }

  ghost function Delivered<R>(got: seq<(string, R)>, n: nat, x: string): nat
    requires n <= |got|
  {
    if n == 0 then 0 else Delivered(got, n - 1, x) + One(got[n - 1].0 == x)
  }

  ghost predicate Balance<R>(cfg: Config<R>, s: Pool<R>, x: string) {
    && s.next <= |cfg.syms|
    && Delivered(s.got, |s.got|, x) + InFlight(s.workers, |s.workers|, x) == HandedOut(cfg.syms, s.next, x)
  }

  lemma {:induction false} InFlightUpdate<R>(ws: seq<Worker<R>>, n: nat, w: nat, v: Worker<R>, x: string)
    requires w < |ws| && n <= |ws|
    ensures InFlight(ws[w := v], n, x) + (if w < n then Holds(ws[w], x) else 0)
         == InFlight(ws, n, x) + (if w < n then Holds(v, x) else 0)
  {
    if n > 0 {
      InFlightUpdate(ws, n - 1, w, v, x);
    }
  }

  lemma {:induction false} NothingInFlight<R>(ws: seq<Worker<R>>, n: nat, x: string)
    requires n <= |ws| && forall i | 0 <= i < n :: ws[i].Idle? || ws[i].Exited?
    ensures InFlight(ws, n, x) == 0
  {
    if n > 0 {
      NothingInFlight(ws, n - 1, x);
    }
  }

  lemma {:induction false} DeliveredPrefix<R>(got: seq<(string, R)>, p: (string, R), n: nat, x: string)
    requires n <= |got|
    ensures Delivered(got + [p], n, x) == Delivered(got, n, x)
  {
    if n > 0 {
      DeliveredPrefix(got, p, n - 1, x);
    }
  }

  // ---- The invariant ----

  ghost predicate Inv<R>(cfg: Config<R>, s: Pool<R>) {
    && s.next <= |cfg.syms|
    && |s.workers| == cfg.workers
    && (s.feeding ==> forall i | 0 <= i < |s.workers| :: !s.workers[i].Exited?)
    && (!s.resultsOpen ==> AllExited(s.workers))
    && (!s.collecting ==> !s.resultsOpen)
    && (!s.feeding && !s.cancelled ==> s.next == |cfg.syms|)
    && (forall x: string :: Balance(cfg, s, x))
    && (!s.cancelled ==>
          && (forall p | p in s.got :: p.1 == cfg.compute(p.0))
          && (forall i | 0 <= i < |s.workers| && s.workers[i].Sending? ::
                s.workers[i].result == cfg.compute(s.workers[i].sym)))
  }

  lemma InitInv<R>(cfg: Config<R>)
    ensures Inv(cfg, Init(cfg))
  {
    forall x: string ensures Balance(cfg, Init(cfg), x) {
      NothingInFlight(Init(cfg).workers, cfg.workers, x);
    }
  }

  /** Replacing one worker changes the count in flight by what it held and holds. */
  lemma WorkerMoves<R>(ws: seq<Worker<R>>, w: nat, v: Worker<R>, x: string)
    requires w < |ws|
    ensures InFlight(ws[w := v], |ws|, x) + Holds(ws[w], x) == InFlight(ws, |ws|, x) + Holds(v, x)
  {
    InFlightUpdate(ws, |ws|, w, v, x);
  }

  lemma DeliverBalance<R>(cfg: Config<R>, s: Pool<R>, w: nat, x: string)
    requires Balance(cfg, s, x) && Enabled(cfg, s, Deliver(w))
    ensures Balance(cfg, Do(cfg, s, Deliver(w)), x)
  {
    WorkerMoves(s.workers, w, Idle, x);
    DeliveredPrefix(s.got, (s.workers[w].sym, s.workers[w].result), |s.got|, x);
  }

  /** A step moves a symbol from handed out to in flight to delivered and loses none. */
  lemma StepBalance<R>(cfg: Config<R>, s: Pool<R>, a: Action<R>, x: string)
    requires Balance(cfg, s, x) && Enabled(cfg, s, a)
    ensures Balance(cfg, Do(cfg, s, a), x)
  {
    match a
    case Feed(w) => WorkerMoves(s.workers, w, Busy(cfg.syms[s.next]), x);
    case Compute(w, r) => WorkerMoves(s.workers, w, Sending(s.workers[w].sym, r), x);
    case Deliver(w) => DeliverBalance(cfg, s, w, x);
    case Exit(w) => WorkerMoves(s.workers, w, Exited, x);
    case _ =>
  }

  lemma StepKeepsInv<R>(cfg: Config<R>, s: Pool<R>, a: Action<R>)
    requires cfg.workers > 0 && Inv(cfg, s) && Enabled(cfg, s, a)
    ensures Inv(cfg, Do(cfg, s, a))
  {
    forall x: string ensures Balance(cfg, Do(cfg, s, a), x) {
      StepBalance(cfg, s, a, x);
    }
  }

  lemma {:induction false} ReachableInv<R>(cfg: Config<R>, acts: seq<Action<R>>)
    requires cfg.workers > 0 && Exec(cfg, acts).Some?
    ensures Inv(cfg, Exec(cfg, acts).value)
  {
    if acts == [] {
      InitInv(cfg);
    } else {
      var before := acts[..|acts| - 1];
      ReachableInv(cfg, before);
      StepKeepsInv(cfg, Exec(cfg, before).value, acts[|acts| - 1]);
    }
  }

  /** Nothing is ever sent on the closed results channel, and no sender is left without its receiver. */
  lemma NoSendAfterClose<R>(cfg: Config<R>, acts: seq<Action<R>>, w: nat)
    requires cfg.workers > 0 && Exec(cfg, acts).Some?
    requires w < |Exec(cfg, acts).value.workers| && !Exec(cfg, acts).value.workers[w].Exited?
    ensures Exec(cfg, acts).value.resultsOpen && Exec(cfg, acts).value.collecting
  {
    ReachableInv(cfg, acts);
  }

  /** No reachable state short of the end is stuck, whether or not anyone ever cancels. */
  lemma NeverStuck<R>(cfg: Config<R>, acts: seq<Action<R>>)
    requires cfg.workers > 0 && Exec(cfg, acts).Some? && !Final(Exec(cfg, acts).value)
    ensures exists a :: Enabled(cfg, Exec(cfg, acts).value, a) && !a.Cancel?
  {
    ReachableInv(cfg, acts);
    var s := Exec(cfg, acts).value;
    if w: nat :| w < |s.workers| && s.workers[w].Busy? {
      assert Enabled(cfg, s, Compute(w, cfg.compute(s.workers[w].sym)));
    } else if w: nat :| w < |s.workers| && s.workers[w].Sending? {
      assert Enabled(cfg, s, Deliver(w));
    } else if s.feeding {
      assert !s.workers[0].Exited?;
      assert Enabled(cfg, s, if s.next < |cfg.syms| then Feed(0) else FeedDone);
    } else if w: nat :| w < |s.workers| && s.workers[w].Idle? {
      assert Enabled(cfg, s, Exit(w));
    } else {
      assert Enabled(cfg, s, if s.resultsOpen then CloseResults else CollectDone);
    }
  }

  /** After a cancellation the pool can come to its end without handing out another symbol. */
  lemma WindsDown<R>(cfg: Config<R>, acts: seq<Action<R>>)
    requires cfg.workers > 0 && Exec(cfg, acts).Some?
    requires Exec(cfg, acts).value.cancelled && !Final(Exec(cfg, acts).value)
    ensures exists a :: Enabled(cfg, Exec(cfg, acts).value, a) && !a.Cancel? && !a.Feed?
  {
    ReachableInv(cfg, acts);
    var s := Exec(cfg, acts).value;
    if w: nat :| w < |s.workers| && s.workers[w].Busy? {
      assert Enabled(cfg, s, Compute(w, cfg.compute(s.workers[w].sym)));
    } else if w: nat :| w < |s.workers| && s.workers[w].Sending? {
      assert Enabled(cfg, s, Deliver(w));
    } else if s.feeding {
      assert Enabled(cfg, s, if s.next < |cfg.syms| then FeedAbort else FeedDone);
    } else if w: nat :| w < |s.workers| && s.workers[w].Idle? {
      assert Enabled(cfg, s, Exit(w));
    } else {
      assert Enabled(cfg, s, if s.resultsOpen then CloseResults else CollectDone);
    }
  }

  // ---- Termination ----

  ghost function Effort<R>(w: Worker<R>): nat {
    match w
    case Idle => 1
    case Busy(_) => 3
    case Sending(_, _) => 2
    case Exited => 0
  }

  ghost function Efforts<R>(ws: seq<Worker<R>>): nat {
    if ws == [] then 0 else Effort(ws[0]) + Efforts(ws[1..])
  }

  lemma {:induction false} EffortsUpdate<R>(ws: seq<Worker<R>>, w: nat, x: Worker<R>)
    requires w < |ws|
    ensures Efforts(ws[w := x]) + Effort(ws[w]) == Efforts(ws) + Effort(x)
  {
    if w == 0 {
      assert ws[w := x] == [x] + ws[1..];
    } else {
      EffortsUpdate(ws[1..], w - 1, x);
      assert ws[w := x] == [ws[0]] + ws[1..][w - 1 := x];
    }
  }

  /** Steps still possible, at most. */
  ghost function Measure<R>(cfg: Config<R>, s: Pool<R>): nat
    requires s.next <= |cfg.syms|
  {
    3 * (|cfg.syms| - s.next) + Efforts(s.workers)
    + One(s.feeding) + One(s.resultsOpen) + One(s.collecting) + One(!s.cancelled)
  }

  lemma StepDecreases<R>(cfg: Config<R>, s: Pool<R>, a: Action<R>)
    requires s.next <= |cfg.syms| && Enabled(cfg, s, a)
    ensures Measure(cfg, Do(cfg, s, a)) < Measure(cfg, s)
  {
    if a.Feed? || a.Compute? || a.Deliver? || a.Exit? {
      EffortsUpdate(s.workers, a.w, Do(cfg, s, a).workers[a.w]);
    }
  }

  lemma {:induction false} IdleEfforts<R>(ws: seq<Worker<R>>)
    requires forall i | 0 <= i < |ws| :: ws[i].Idle?
    ensures Efforts(ws) == |ws|
  {
    if ws != [] {
      IdleEfforts(ws[1..]);
    }
  }

  lemma {:induction false} ScheduleMeasure<R>(cfg: Config<R>, acts: seq<Action<R>>)
    requires cfg.workers > 0 && Exec(cfg, acts).Some?
    ensures Exec(cfg, acts).value.next <= |cfg.syms|
    ensures |acts| + Measure(cfg, Exec(cfg, acts).value) <= Measure(cfg, Init(cfg))
  {
    ReachableInv(cfg, acts);
    if acts != [] {
      var before := acts[..|acts| - 1];
      ScheduleMeasure(cfg, before);
      StepDecreases(cfg, Exec(cfg, before).value, acts[|acts| - 1]);
    }
  }

  /** Every schedule ends: three steps a symbol, one a worker, and the four one-time steps. */
  lemma SchedulesAreBounded<R>(cfg: Config<R>, acts: seq<Action<R>>)
    requires cfg.workers > 0 && Exec(cfg, acts).Some?
    ensures |acts| <= 3 * |cfg.syms| + cfg.workers + 4
  {
    ScheduleMeasure(cfg, acts);
    IdleEfforts(Init(cfg).workers);
  }

  // ---- What has been delivered at the end ----

  /** At the end no goroutine is left, and exactly the symbols handed out were delivered, once each. */
  lemma FinalDelivery<R>(cfg: Config<R>, acts: seq<Action<R>>)
    requires cfg.workers > 0 && Exec(cfg, acts).Some? && Final(Exec(cfg, acts).value)
    ensures var s := Exec(cfg, acts).value;
      && AllExited(s.workers) && !s.feeding && !s.resultsOpen
      && s.next <= |cfg.syms|
      && (forall x: string :: Delivered(s.got, |s.got|, x) == HandedOut(cfg.syms, s.next, x))
      && (!s.cancelled ==> s.next == |cfg.syms|)
  {
    ReachableInv(cfg, acts);
    var s := Exec(cfg, acts).value;
    assert s.workers[0].Exited?;
    forall x: string ensures Delivered(s.got, |s.got|, x) == HandedOut(cfg.syms, s.next, x) {
      assert Balance(cfg, s, x);
      NothingInFlight(s.workers, |s.workers|, x);
    }
  }

  /** The sequential outcome: every symbol with its own result, in the order listed. */
  ghost function Sequential<R>(cfg: Config<R>): seq<(string, R)> {
    seq(|cfg.syms|, i requires 0 <= i < |cfg.syms| => (cfg.syms[i], cfg.compute(cfg.syms[i])))
  }

  lemma {:induction false} CountByKey<R>(cfg: Config<R>, got: seq<(string, R)>, n: nat, p: (string, R))
    requires n <= |got| && forall q | q in got :: q.1 == cfg.compute(q.0)
    ensures multiset(got[..n])[p] == if p.1 == cfg.compute(p.0) then Delivered(got, n, p.0) else 0
  {
    if n > 0 {
      CountByKey(cfg, got, n - 1, p);
      assert got[..n] == got[..n - 1] + [got[n - 1]];
      assert got[n - 1] in got;
    }
  }

  lemma {:induction false} SequentialCount<R>(cfg: Config<R>, n: nat, x: string)
    requires n <= |cfg.syms|
    ensures Delivered(Sequential(cfg), n, x) == HandedOut(cfg.syms, n, x)
  {
    if n > 0 {
      SequentialCount(cfg, n - 1, x);
    }
  }

  lemma SameCount<R>(cfg: Config<R>, acts: seq<Action<R>>, p: (string, R))
    requires cfg.workers > 0 && Exec(cfg, acts).Some?
    requires Final(Exec(cfg, acts).value) && !Exec(cfg, acts).value.cancelled
    ensures multiset(Exec(cfg, acts).value.got)[p] == multiset(Sequential(cfg))[p]
  {
    ReachableInv(cfg, acts);
    FinalDelivery(cfg, acts);
    var x, y := Exec(cfg, acts).value.got, Sequential(cfg);
    CountByKey(cfg, x, |x|, p);
    CountByKey(cfg, y, |y|, p);
    SequentialCount(cfg, |y|, p.0);
    assert x[..|x|] == x && y[..|y|] == y;
  }

  /** Without cancellation the collector receives what a sequential loop would compute, in some order. */
  lemma UncancelledDelivery<R(!new)>(cfg: Config<R>, acts: seq<Action<R>>)
    requires cfg.workers > 0 && Exec(cfg, acts).Some?
    requires Final(Exec(cfg, acts).value) && !Exec(cfg, acts).value.cancelled
    ensures multiset(Exec(cfg, acts).value.got) == multiset(Sequential(cfg))
  {
    forall p: (string, R)
      ensures multiset(Exec(cfg, acts).value.got)[p] == multiset(Sequential(cfg))[p]
    {
      SameCount(cfg, acts, p);
    }
  }

  // ---- Schedule independence ----

  /**
   Whatever the schedule and the number of workers, an uncancelled pool leaves the
   ticker table and the sorted list that a sequential loop over the symbols leaves.
   */
  lemma {:induction false} ScheduleIndependent<R(!new), V, T(!new)>(
    cfg: Config<R>, acts: seq<Action<R>>, m: map<string, V>,
    apply: ((string, R), Option<V>) -> Option<V>, row: ((string, R)) -> Option<T>, le: (T, T) -> bool)
    requires cfg.workers > 0 && Exec(cfg, acts).Some?
    requires Final(Exec(cfg, acts).value) && !Exec(cfg, acts).value.cancelled
    requires forall i, j | 0 <= i < j < |cfg.syms| :: cfg.syms[i] != cfg.syms[j]
    requires Total(le) && Transitive(le) && AntiSymmetricOn(le, Fanout.Listed(Sequential(cfg), row))
    ensures var got, sequential := Exec(cfg, acts).value.got, Sequential(cfg);
      && |got| == |cfg.syms|
      && Fanout.Fold(m, got, |got|, Fanout.Key, apply) == Fanout.Fold(m, sequential, |sequential|, Fanout.Key, apply)
      && Sort(le, Fanout.Listed(got, row)) == Sort(le, Fanout.Listed(sequential, row))
  {
    var got, sequential := Exec(cfg, acts).value.got, Sequential(cfg);
    UncancelledDelivery(cfg, acts);
    assert |got| == |multiset(got)| && |sequential| == |multiset(sequential)|;
    Fanout.FoldOrderIndependent(m, sequential, got, Fanout.Key, apply);
    Fanout.ListOrderIndependent(sequential, got, row, le);
  }

  /** A pool ran to its end undisturbed. */
  ghost predicate Completed<R>(cfg: Config<R>, acts: seq<Action<R>>) {
    && cfg.workers > 0
    && Exec(cfg, acts).Some?
    && Final(Exec(cfg, acts).value)
    && !Exec(cfg, acts).value.cancelled
  }

  ghost function Got<R>(cfg: Config<R>, acts: seq<Action<R>>): seq<(string, R)>
    requires Completed(cfg, acts)
  {
    Exec(cfg, acts).value.got
  }

  /** A completed pool delivers exactly the pairs of a listed symbol and its own result, once each. */
  lemma GotExactly<R(!new)>(cfg: Config<R>, acts: seq<Action<R>>)
    requires Completed(cfg, acts) && Distinct(cfg.syms)
    ensures Fanout.OnceEach(cfg.syms, cfg.compute, Got(cfg, acts))
  {
    UncancelledDelivery(cfg, acts);
    var got, sequential := Got(cfg, acts), Sequential(cfg);
    Fanout.KeysOfPermutation(sequential, got, Fanout.Key);
    forall p ensures p in got <==> p.0 in cfg.syms && p.1 == cfg.compute(p.0) {
      assert p in got <==> p in multiset(sequential);
      if p.0 in cfg.syms && p.1 == cfg.compute(p.0) {
        var i :| 0 <= i < |cfg.syms| && cfg.syms[i] == p.0;
        assert sequential[i] == p;
      }
    }
  }

  /** A pool as its caller sees it: symbols and a lookup in, results in order of arrival out. */
  type Gather<!R> = (seq<string>, string -> R) -> seq<(string, R)>

  /** Some undisturbed schedule of some number of workers delivers `got`. */
  ghost predicate Delivers<R(!new)>(syms: seq<string>, compute: string -> R, got: seq<(string, R)>) {
    exists workers: nat, acts: seq<Action<R>> ::
      Completed(Config(syms, workers, compute), acts) && got == Got(Config(syms, workers, compute), acts)
  }

  /** Whatever it is asked, it answers with the delivery of some schedule. */
  ghost predicate IsPool<R(!new)>(gather: Gather<R>) {
    forall syms, compute | Distinct(syms) :: Delivers(syms, compute, gather(syms, compute))
  }

  lemma PoolDelivers<R(!new)>(gather: Gather<R>, syms: seq<string>, compute: string -> R)
    requires IsPool(gather) && Distinct(syms)
    ensures Fanout.OnceEach(syms, compute, gather(syms, compute))
  {
    var got := gather(syms, compute);
    assert Delivers(syms, compute, got);
    var workers: nat, acts: seq<Action<R>> :|
      Completed(Config(syms, workers, compute), acts) && got == Got(Config(syms, workers, compute), acts);
    GotExactly(Config(syms, workers, compute), acts);
  }

  /** Two answers to the same question differ in order only. */
  lemma DeliveriesPermute<R(!new)>(
    syms: seq<string>, compute: string -> R, a: seq<(string, R)>, b: seq<(string, R)>)
    requires Distinct(syms) && Delivers(syms, compute, a) && Delivers(syms, compute, b)
    ensures multiset(a) == multiset(b) && Fanout.DistinctKeys(a, Fanout.Key)
  {
    var m: nat, acts: seq<Action<R>> :|
      Completed(Config(syms, m, compute), acts) && a == Got(Config(syms, m, compute), acts);
    var n: nat, bcts: seq<Action<R>> :|
      Completed(Config(syms, n, compute), bcts) && b == Got(Config(syms, n, compute), bcts);
    UncancelledDelivery(Config(syms, m, compute), acts);
    UncancelledDelivery(Config(syms, n, compute), bcts);
    GotExactly(Config(syms, m, compute), acts);
    assert Sequential(Config(syms, m, compute)) == Sequential(Config(syms, n, compute));
  }

  // ---- One of the schedules ----

  /** A single worker takes the symbols in order. */
  ghost function OneByOne<R>(cfg: Config<R>, n: nat): seq<Action<R>>
    requires n <= |cfg.syms|
  {
    if n == 0 then []
    else OneByOne(cfg, n - 1) + [Feed(0)] + [Compute(0, cfg.compute(cfg.syms[n - 1]))] + [Deliver(0)]
  }

  ghost predicate Leads<R>(cfg: Config<R>, acts: seq<Action<R>>, s: Pool<R>) {
    Exec(cfg, acts) == Some(s)
  }

  lemma LeadsOn<R>(cfg: Config<R>, acts: seq<Action<R>>, s: Pool<R>, a: Action<R>)
    requires Leads(cfg, acts, s) && Enabled(cfg, s, a)
    ensures Leads(cfg, acts + [a], Do(cfg, s, a))
  {
    assert (acts + [a])[..|acts|] == acts;
  }

  /** The state of a single worker's pool that has dealt with the first `n` symbols. */
  ghost function Lone<R>(n: nat, w: Worker<R>, got: seq<(string, R)>): Pool<R> {
    Pool(n, true, [w], true, got, true, false)
  }

  lemma Alone<R>(w: Worker<R>, v: Worker<R>)
    ensures [w][0 := v] == [v]
  {
  }

  lemma OneTurn<R>(cfg: Config<R>, acts: seq<Action<R>>, n: nat, got: seq<(string, R)>)
    requires n < |cfg.syms| && Leads(cfg, acts, Lone(n, Idle, got))
    ensures var sym := cfg.syms[n];
      Leads(cfg, acts + [Feed(0)] + [Compute(0, cfg.compute(sym))] + [Deliver(0)],
            Lone(n + 1, Idle, got + [(sym, cfg.compute(sym))]))
  {
    hide Leads;
    var sym, r := cfg.syms[n], cfg.compute(cfg.syms[n]);
    Alone<R>(Idle, Busy(sym));
    Alone(Busy(sym), Sending(sym, r));
    Alone(Sending(sym, r), Idle);
    LeadsOn(cfg, acts, Lone(n, Idle, got), Feed(0));
    LeadsOn(cfg, acts + [Feed(0)], Lone(n + 1, Busy(sym), got), Compute(0, r));
    LeadsOn(cfg, acts + [Feed(0)] + [Compute(0, r)], Lone(n + 1, Sending(sym, r), got), Deliver(0));
  }

  lemma {:induction false} OneByOneDelivers<R>(cfg: Config<R>, n: nat)
    requires cfg.workers == 1 && n <= |cfg.syms|
    ensures Leads(cfg, OneByOne(cfg, n), Lone(n, Idle, Sequential(cfg)[..n]))
  {
    if n > 0 {
      OneByOneDelivers(cfg, n - 1);
      OneTurn(cfg, OneByOne(cfg, n - 1), n - 1, Sequential(cfg)[..n - 1]);
      assert Sequential(cfg)[..n] == Sequential(cfg)[..n - 1] + [(cfg.syms[n - 1], cfg.compute(cfg.syms[n - 1]))];
      hide Leads;
    } else {
      assert Init(cfg).workers == [Idle];
    }
  }

  ghost function AnswerInOrder<R>(syms: seq<string>, compute: string -> R): seq<(string, R)> {
    Sequential(Config(syms, 1, compute))
  }

  /** So delivery in the order of the list is among the answers a pool may give. */
  lemma SequentialDelivers<R(!new)>(syms: seq<string>, compute: string -> R)
    ensures Delivers(syms, compute, AnswerInOrder(syms, compute))
  {
    var cfg := Config(syms, 1, compute);
    var acts := OneByOne(cfg, |syms|);
    OneByOneDelivers(cfg, |syms|);
    var got := Sequential(cfg);
    assert got[..|syms|] == got;
    var s0 := Lone(|syms|, Idle, got);
    var s1 := s0.(feeding := false);
    var s2 := s1.(workers := [Exited]);
    var s3 := s2.(resultsOpen := false);
    Alone<R>(Idle, Exited);
    LeadsOn(cfg, acts, s0, FeedDone);
    LeadsOn(cfg, acts + [FeedDone], s1, Exit(0));
    LeadsOn(cfg, acts + [FeedDone] + [Exit(0)], s2, CloseResults);
    LeadsOn(cfg, acts + [FeedDone] + [Exit(0)] + [CloseResults], s3, CollectDone);
    assert Completed(cfg, acts + [FeedDone] + [Exit(0)] + [CloseResults] + [CollectDone]);
  }

  lemma PoolsExist<R(!new)>()
    ensures IsPool((syms: seq<string>, compute: string -> R) => AnswerInOrder(syms, compute))
  {
    forall syms, compute: string -> R | Distinct(syms) ensures Delivers(syms, compute, AnswerInOrder(syms, compute)) {
      SequentialDelivers(syms, compute);
    }
  }
}
