/**
 Laws of whole replays: rejected trades are invisible, seeding then stepping is
 stepping throughout, actions never disturb market data, what is set stays set, and
 every finished position has the outcome its exit reason promises.
 */
module ReplayLaws {
  import opened Wrappers
  import opened Tape
  import opened Reals
  import opened Lifecycle

  // ---- Rejected trades ----

  /** The accepted trades among the first `n`, in order. */
  ghost function Kept(c: Clock, a: seq<Tick>, n: nat): (s: seq<Tick>)
    requires n <= |a|
    ensures AllAccepted(c, s)
  {
    if n == 0 then []
    else
      var s := Kept(c, a, n - 1);
      if Accepts(c, a[n - 1]) then s + [a[n - 1]] else s
  }

  lemma KeptUnfolds(c: Clock, a: seq<Tick>, n: nat)
    requires n <= |a|
    ensures Kept(c, a, n) ==
      if n == 0 then []
      else if Accepts(c, a[n - 1]) then Kept(c, a, n - 1) + [a[n - 1]] else Kept(c, a, n - 1)
  {
  }

  lemma {:induction false} RunPrefix(c: Clock, r: Risk, t: Ticker, a: seq<Tick>, b: seq<Tick>, n: nat)
    requires n <= |a| && n <= |b| && a[..n] == b[..n]
    ensures Run(c, r, t, a, n) == Run(c, r, t, b, n)
    ensures Emitted(c, r, t, a, n) == Emitted(c, r, t, b, n)
  {
    if n > 0 {
      assert a[..n - 1] == a[..n][..n - 1] && b[..n - 1] == b[..n][..n - 1];
      assert a[n - 1] == a[..n][n - 1] && b[n - 1] == b[..n][n - 1];
      RunPrefix(c, r, t, a, b, n - 1);
    }
  }

  /** The accepted trades are in time order; the others may carry any time. */
  ghost predicate InOrder(c: Clock, a: seq<Tick>) {
    forall i, j | 0 <= i < j < |a| && Accepts(c, a[i]) && Accepts(c, a[j]) :: a[i].time <= a[j].time
  }

  lemma {:induction false} KeptChronological(c: Clock, a: seq<Tick>, n: nat)
    requires n <= |a| && InOrder(c, a)
    ensures Chronological(Kept(c, a, n))
    ensures forall j, i | 0 <= j < |Kept(c, a, n)| && n <= i < |a| && Accepts(c, a[i]) ::
      Kept(c, a, n)[j].time <= a[i].time
  {
    if n > 0 {
      KeptChronological(c, a, n - 1);
    }
  }

  lemma RunSnoc(c: Clock, r: Risk, t: Ticker, s: seq<Tick>, k: Tick)
    ensures Run(c, r, t, s + [k], |s| + 1) == Step(c, r, Run(c, r, t, s, |s|), k)
    ensures Emitted(c, r, t, s + [k], |s| + 1) == Emitted(c, r, t, s, |s|) + Emits(c, Run(c, r, t, s, |s|), k)
  {
    RunPrefix(c, r, t, s, s + [k], |s|);
  }

  lemma RejectedStep(c: Clock, r: Risk, t: Ticker, k: Tick)
    requires !Accepts(c, k)
    ensures Step(c, r, t, k) == t && Emits(c, t, k) == []
  {
  }

  lemma {:induction false} RejectedAreInvisible(c: Clock, r: Risk, t: Ticker, a: seq<Tick>, n: nat)
    requires n <= |a|
    ensures var s := Kept(c, a, n);
      && Run(c, r, t, a, n) == Run(c, r, t, s, |s|)
      && Emitted(c, r, t, a, n) == Emitted(c, r, t, s, |s|)
  {
    hide *;
    RunUnfolds(c, r, t, a, n);
    KeptUnfolds(c, a, n);
    if n > 0 {
      RejectedAreInvisible(c, r, t, a, n - 1);
      var s, k, u := Kept(c, a, n - 1), a[n - 1], Run(c, r, t, a, n - 1);
      if Accepts(c, k) {
        RunSnoc(c, r, t, s, k);
      } else {
        RejectedStep(c, r, u, k);
      }
    } else {
      RunUnfolds(c, r, t, [], 0);
    }
  }

  /** The machine meets the declarative description on any tape, accepted or not. */
  lemma ReplayMeetsSpec(c: Clock, r: Risk, t: Ticker, a: seq<Tick>)
    requires RiskOk(r) && Fresh(t)
    ensures var s := Kept(c, a, |a|);
      && Run(c, r, t, a, |a|) == Expected(c, r, t, s, |s|)
      && Emitted(c, r, t, a, |a|) == ExpectedEvents(c, r, t, s, |s|)
  {
    var s := Kept(c, a, |a|);
    RejectedAreInvisible(c, r, t, a, |a|);
    RunMeetsSpec(c, r, t, s, |s|);
  }

  // ---- What a tape adds up to, with the session's window written out ----

  /** A trade with price and size, from the open to five minutes after the exit time. */
  ghost predicate Counts(c: Clock, k: Tick) {
    && k.time >= c.open && k.time <= c.exit + 300000
    && k.price > 0.0 && k.size > 0.0
  }

  ghost function Volume(c: Clock, a: seq<Tick>, n: nat): real
    requires n <= |a|
  {
    if n == 0 then 0.0 else Volume(c, a, n - 1) + if Counts(c, a[n - 1]) then a[n - 1].size else 0.0
  }

  ghost function Turnover(c: Clock, a: seq<Tick>, n: nat): real
    requires n <= |a|
  {
    if n == 0 then 0.0
    else Turnover(c, a, n - 1) + if Counts(c, a[n - 1]) then a[n - 1].price * a[n - 1].size else 0.0
  }

  /** The last of the first `n` trades that counts. */
  ghost function LastTrade(c: Clock, a: seq<Tick>, n: nat): (k: Option<Tick>)
    requires n <= |a|
    ensures k.None? ==> forall i | 0 <= i < n :: !Counts(c, a[i])
    ensures k.Some? ==>
      exists i | 0 <= i < n :: k == Some(a[i]) && Counts(c, a[i]) && forall j | i < j < n :: !Counts(c, a[j])
  {
    if n == 0 then None else if Counts(c, a[n - 1]) then Some(a[n - 1]) else LastTrade(c, a, n - 1)
  }

  /** The market data of the first `n` trades of a tape. */
  ghost predicate Totals(c: Clock, m: Market, a: seq<Tick>, n: nat)
    requires n <= |a|
  {
    var k := LastTrade(c, a, n);
    && m.cumV == Volume(c, a, n) && m.cumPV == Turnover(c, a, n)
    && m.cumV >= 0.0 && m.vwap * m.cumV == m.cumPV
    && m.lastPrice == (if k.Some? then k.value.price else 0.0)
    && m.lastTrade == (if k.Some? then Some(k.value.time) else None)
  }

  /** What a trade adds to a ticker: nothing at all unless it counts. */
  ghost predicate TakenIn(c: Clock, t: Ticker, u: Ticker, time: int, price: real, size: real) {
    var m, n := t.market, u.market;
    if c.open <= time <= c.exit + 300000 && price > 0.0 && size > 0.0 then
      && n.cumV == m.cumV + size && n.cumPV == m.cumPV + price * size
      && (m.cumV >= 0.0 ==> n.vwap * n.cumV == n.cumPV)
      && n.lastPrice == price && n.lastTrade == Some(time)
    else u == t
  }

  lemma StepCounts(c: Clock, r: Risk, t: Ticker, k: Tick)
    ensures TakenIn(c, t, Step(c, r, t, k), k.time, k.price, k.size)
  {
    assert Step(c, r, t, k).market == if Accepts(c, k) then Advance(c, t.market, k) else t.market;
  }

  lemma TotalsGrow(c: Clock, r: Risk, t: Ticker, a: seq<Tick>, n: nat)
    requires 0 < n <= |a| && Totals(c, t.market, a, n - 1)
    ensures Totals(c, Step(c, r, t, a[n - 1]).market, a, n)
  {
    StepCounts(c, r, t, a[n - 1]);
    hide Step;
  }

  /** Any tape from a fresh ticker: volume, turnover, their quotient and the last trade. */
  lemma {:induction false} RunTotals(c: Clock, r: Risk, t: Ticker, a: seq<Tick>, n: nat)
    requires n <= |a| && Fresh(t)
    ensures Totals(c, Run(c, r, t, a, n).market, a, n)
  {
    RunUnfolds(c, r, t, a, n);
    if n > 0 {
      hide *;
      RunTotals(c, r, t, a, n - 1);
      TotalsGrow(c, r, Run(c, r, t, a, n - 1), a, n);
    }
  }

  /** Where a trade leaves a position: nothing, its target or its stop. */
  ghost function Leaves(p: Position, price: real): Label {
    if p.target > 0.0 && price >= p.target then Profit
    else if p.stop > 0.0 && price <= p.stop then Stop
    else Unset
  }

  /**
   An open position is left by exactly those counted trades that may act and lie at or
   beyond one of its levels, at their price and time; anything else leaves it open.
   */
  lemma LevelsMeanExit(c: Clock, r: Risk, t: Ticker, k: Tick)
    requires Open(t)
    ensures var p, u, why := t.position, Step(c, r, t, k), Leaves(t.position, k.price);
      if Counts(c, k) && k.allow && why != Unset then
        && u.position == p.(exited := true, reason := why, exitPrice := k.price, exitTime := Some(k.time),
                            exitMinutes := Elapsed(c, k.time))
        && u.status == why && Emits(c, t, k) == [Event(why, t.symbol, k.time)]
      else u.position == p && u.status == t.status && Emits(c, t, k) == []
  {
  }

  // ---- Seeding ----

  /** A ticker without the scratch fields that every accepted trade overwrites. */
  ghost function Masked(t: Ticker): Ticker {
    t.(market := t.market.(prevPrice := 0.0, prevVwap := 0.0, minutes := 0.0))
  }

  lemma {:induction false} RunAgrees(c: Clock, r: Risk, t: Ticker, u: Ticker, a: seq<Tick>, n: nat)
    requires n <= |a| && Masked(t) == Masked(u)
    ensures Masked(Run(c, r, t, a, n)) == Masked(Run(c, r, u, a, n))
    ensures (exists i | 0 <= i < n :: Accepts(c, a[i])) ==> Run(c, r, t, a, n) == Run(c, r, u, a, n)
  {
    if n > 0 {
      RunAgrees(c, r, t, u, a, n - 1);
    }
  }

  lemma {:induction false} RunAppend(c: Clock, r: Risk, t: Ticker, a: seq<Tick>, b: seq<Tick>, n: nat)
    requires n <= |b|
    ensures Run(c, r, t, a + b, |a| + n) == Run(c, r, Run(c, r, t, a, |a|), b, n)
  {
    if n == 0 {
      RunPrefix(c, r, t, a, a + b, |a|);
    } else {
      RunAppend(c, r, t, a, b, n - 1);
    }
  }

  /** An opening trade with a price, a size and a time falls between the open and the selection. */
  ghost predicate Early(c: Clock, k: Tick) {
    k.price > 0.0 && k.size > 0.0 && k.time != 0 ==> c.open <= k.time < c.sel
  }

  ghost predicate BeforeSelection(c: Clock, a: seq<Tick>) {
    forall i | 0 <= i < |a| :: Early(c, a[i])
  }

  lemma SeedStepAgrees(c: Clock, r: Risk, t: Ticker, u: Ticker, k: Tick)
    requires ClockOk(c) && Masked(t) == Masked(u) && u.position == FLAT
    requires Early(c, k)
    ensures Masked(SeedStep(c, t, k)) == Masked(Step(c, r, u, k))
    ensures Step(c, r, u, k).position == FLAT
  {
    assert Accepts(c, k) <==> SeedAccepts(k);
    if Accepts(c, k) {
      assert t.market.cumPV == u.market.cumPV && t.market.cumV == u.market.cumV;
      assert Masked(SeedStep(c, t, k)).market == Masked(Recorded(c, u, k)).market;
      assert !Buys(c, Recorded(c, u, k), k);
    }
  }

  lemma {:induction false} SeedAgrees(c: Clock, r: Risk, t: Ticker, a: seq<Tick>, n: nat)
    requires n <= |a| && ClockOk(c) && Fresh(t) && BeforeSelection(c, a)
    ensures Masked(SeedRun(c, t, a, n)) == Masked(Run(c, r, t, a, n))
    ensures Run(c, r, t, a, n).position == FLAT
  {
    if n > 0 {
      SeedAgrees(c, r, t, a, n - 1);
      SeedStepAgrees(c, r, SeedRun(c, t, a, n - 1), Run(c, r, t, a, n - 1), a[n - 1]);
      hide Step, SeedStep;
    }
  }

  /**
   Seeding over the opening trades and then stepping over the rest is stepping over
   everything; from the first accepted later trade on, the tickers are identical.
   */
  lemma SeamIsInvisible(c: Clock, r: Risk, t: Ticker, a: seq<Tick>, b: seq<Tick>)
    requires ClockOk(c) && Fresh(t) && BeforeSelection(c, a)
    ensures var u, v := Run(c, r, Seeded(c, t, a), b, |b|), Run(c, r, t, a + b, |a + b|);
      && Masked(u) == Masked(v)
      && ((exists i | 0 <= i < |b| :: Accepts(c, b[i])) ==> u == v)
  {
    SeedAgrees(c, r, t, a, |a|);
    RunAgrees(c, r, Seeded(c, t, a), Run(c, r, t, a, |a|), b, |b|);
    RunAppend(c, r, t, a, b, |b|);
  }

  lemma {:induction false} SeedKeepsPrevious(c: Clock, t: Ticker, a: seq<Tick>, n: nat)
    requires n <= |a|
    ensures var m := SeedRun(c, t, a, n).market;
      m.prevPrice == t.market.prevPrice && m.prevVwap == t.market.prevVwap && m.minutes == t.market.minutes
  {
    if n > 0 {
      SeedKeepsPrevious(c, t, a, n - 1);
    }
  }

  /** Only a completed seed makes its last price and VWAP the previous ones of the next trade. */
  lemma SeedPrimes(c: Clock, t: Ticker, a: seq<Tick>)
    ensures var u, v := SeedRun(c, t, a, |a|), Seeded(c, t, a);
      && Masked(u) == Masked(v)
      && u.market.prevPrice == t.market.prevPrice && u.market.prevVwap == t.market.prevVwap
      && (v.market.cumV > 0.0 ==>
            v.market.prevPrice == v.market.lastPrice && v.market.prevVwap == v.market.vwap)
  {
    SeedKeepsPrevious(c, t, a, |a|);
    hide SeedRun;
  }

  lemma SameTotals(c: Clock, t: Ticker, u: Ticker, a: seq<Tick>)
    requires Masked(t) == Masked(u) && Totals(c, u.market, a, |a|)
    ensures Totals(c, t.market, a, |a|)
  {
    var m, n := t.market, u.market;
    assert Masked(t).market == Masked(u).market;
    assert m.cumV == n.cumV && m.cumPV == n.cumPV && m.vwap == n.vwap;
    hide Volume, Turnover, LastTrade, Masked;
  }

  // ---- Market data do not depend on actions ----

  ghost predicate Consistent(t: Ticker) {
    && (t.position.exited ==> t.position.held)
    && (t.position.held ==> t.cross.saw)
  }

  /** The same trades, under possibly different filters and permissions. */
  ghost predicate SameTape(a: seq<Tick>, b: seq<Tick>) {
    && |a| == |b|
    && forall i | 0 <= i < |a| :: a[i].time == b[i].time && a[i].price == b[i].price && a[i].size == b[i].size
  }

  lemma {:induction false} RunConsistent(c: Clock, r: Risk, t: Ticker, a: seq<Tick>, n: nat)
    requires n <= |a| && Consistent(t)
    ensures Consistent(Run(c, r, t, a, n))
  {
    if n > 0 {
      RunConsistent(c, r, t, a, n - 1);
    }
  }

  lemma {:induction false} ActionsDoNotDisturbMarket(
    c: Clock, r: Risk, r': Risk, t: Ticker, a: seq<Tick>, b: seq<Tick>, n: nat)
    requires n <= |a| && SameTape(a, b) && Consistent(t)
    ensures Run(c, r, t, a, n).market == Run(c, r', t, b, n).market
    ensures Run(c, r, t, a, n).cross == Run(c, r', t, b, n).cross
  {
    if n > 0 {
      ActionsDoNotDisturbMarket(c, r, r', t, a, b, n - 1);
      RunConsistent(c, r, t, a, n - 1);
      RunConsistent(c, r', t, b, n - 1);
      var m := Run(c, r, t, a, n - 1).market;
      assert Advance(c, m, a[n - 1]) == Advance(c, m, b[n - 1]);
    }
  }

  /** A catch-up run, in which no trade may act, opens and closes nothing. */
  lemma {:induction false} CatchUpIsPassive(c: Clock, r: Risk, t: Ticker, a: seq<Tick>, n: nat)
    requires n <= |a| && forall i | 0 <= i < n :: !a[i].allow
    ensures Run(c, r, t, a, n).position == t.position
    ensures Emitted(c, r, t, a, n) == []
  {
    if n > 0 {
      CatchUpIsPassive(c, r, t, a, n - 1);
    }
  }

  // ---- Fields that never change once set ----

  ghost function EntryPart(p: Position): Position {
    p.(exited := false, reason := Unset, exitPrice := 0.0, exitTime := None, exitMinutes := 0.0)
  }

  lemma {:induction false} WhatIsSetStays(c: Clock, r: Risk, t: Ticker, a: seq<Tick>, m: nat, n: nat)
    requires m <= n <= |a| && Consistent(t)
    ensures var u, v := Run(c, r, t, a, m), Run(c, r, t, a, n);
      && (u.position.held ==> EntryPart(v.position) == EntryPart(u.position))
      && (u.position.exited ==> v.position == u.position)
      && (u.cross.saw ==> v.cross == u.cross)
    decreases n
  {
    if m < n {
      WhatIsSetStays(c, r, t, a, m, n - 1);
      RunConsistent(c, r, t, a, n - 1);
    }
  }

  // ---- A close that falls among the trades ----

  /** Two tickers that hold the same position and differ at most in how it was left. */
  ghost predicate SameButExit(x: Ticker, y: Ticker) {
    && x.symbol == y.symbol && x.opening == y.opening && x.market == y.market && x.cross == y.cross
    && x.excursion == y.excursion && EntryPart(x.position) == EntryPart(y.position) && x.position.held
  }

  lemma SameStep(c: Clock, r: Risk, x: Ticker, y: Ticker, k: Tick)
    requires SameButExit(x, y)
    ensures SameButExit(Step(c, r, x, k), Step(c, r, y, k))
  {
  }

  lemma {:induction false} SameRun(c: Clock, r: Risk, x: Ticker, y: Ticker, a: seq<Tick>, n: nat)
    requires n <= |a| && SameButExit(x, y)
    ensures SameButExit(Run(c, r, x, a, n), Run(c, r, y, a, n))
  {
    hide *;
    RunUnfolds(c, r, x, a, n);
    RunUnfolds(c, r, y, a, n);
    if n > 0 {
      SameRun(c, r, x, y, a, n - 1);
      SameStep(c, r, Run(c, r, x, a, n - 1), Run(c, r, y, a, n - 1), a[n - 1]);
    }
  }

  lemma ExitedStep(c: Clock, r: Risk, t: Ticker, k: Tick)
    requires t.position.held && t.position.exited
    ensures Step(c, r, t, k).position == t.position && Step(c, r, t, k).status == t.status && Emits(c, t, k) == []
  {
  }

  lemma {:induction false} ExitedStays(c: Clock, r: Risk, t: Ticker, a: seq<Tick>, n: nat)
    requires n <= |a| && t.position.held && t.position.exited
    ensures Run(c, r, t, a, n).position == t.position && Run(c, r, t, a, n).status == t.status
    ensures Emitted(c, r, t, a, n) == []
  {
    hide *;
    RunUnfolds(c, r, t, a, n);
    if n > 0 {
      ExitedStays(c, r, t, a, n - 1);
      ExitedStep(c, r, Run(c, r, t, a, n - 1), a[n - 1]);
    }
  }

  /**
   The timed close may fall between any two trades.  Market data, first cross, entry and
   extremes come out as if it had never happened; a position it found is left for good,
   and if it found none it changes nothing.  So the end is open exactly if nothing had
   been bought by then and the later trades alone leave a position open.
   */
  lemma CloseAnywhere(c: Clock, r: Risk, t: Ticker, a: seq<Tick>, b: seq<Tick>, time: int)
    ensures
      var w := Run(c, r, t, a, |a|);
      var u, v := Run(c, r, TimeExited(c, w, time), b, |b|), Run(c, r, t, a + b, |a + b|);
      && u.market == v.market && u.cross == v.cross && u.excursion == v.excursion
      && EntryPart(u.position) == EntryPart(v.position)
      && (w.position.held ==> u.position == TimeExited(c, w, time).position)
      && (!w.position.held ==> u == v)
      && (Open(u) <==> !w.position.held && Open(v))
  {
    var w := Run(c, r, t, a, |a|);
    RunAppend(c, r, t, a, b, |b|);
    if w.position.held {
      SameRun(c, r, TimeExited(c, w, time), w, b, |b|);
      ExitedStays(c, r, TimeExited(c, w, time), b, |b|);
    }
  }

  /**
   The close reads a position and closes it in two steps, and trades may fall between
   them.  If it read an open position after `a` and closes it after `a + b`, then
   everything but the exit still comes out as without it, and its own exit is the final one.
   */
  lemma LateClose(c: Clock, r: Risk, t: Ticker, a: seq<Tick>, b: seq<Tick>, d: seq<Tick>, time: int, price: real)
    requires Open(Run(c, r, t, a, |a|))
    ensures
      var x := Run(c, r, t, a + b, |a + b|);
      var y := Closed(c, x, TimeExit, time, price);
      var u := Run(c, r, y, d, |d|);
      && SameButExit(u, Run(c, r, t, a + b + d, |a + b + d|))
      && u.position == y.position && !Open(u) && Emitted(c, r, y, d, |d|) == []
      && x.position.held
  {
    var w := Run(c, r, t, a, |a|);
    SameRun(c, r, w, w, b, |b|);
    RunAppend(c, r, t, a, b, |b|);
    var x := Run(c, r, t, a + b, |a + b|);
    var y := Closed(c, x, TimeExit, time, price);
    RunAppend(c, r, t, a + b, d, |d|);
    SameRun(c, r, y, x, d, |d|);
    ExitedStays(c, r, y, d, |d|);
  }

  /**
   At the price it read, a close that comes late leaves the ticker exactly as if it had
   come when it read: whatever the trades in between did to the position is overwritten,
   and only the log can tell.
   */
  lemma LateCloseIsClose(c: Clock, r: Risk, t: Ticker, a: seq<Tick>, b: seq<Tick>, d: seq<Tick>, time: int)
    requires Open(Run(c, r, t, a, |a|))
    ensures
      var w := Run(c, r, t, a, |a|);
      var y := Closed(c, Run(c, r, t, a + b, |a + b|), TimeExit, time, ClosingPrice(w));
      Run(c, r, y, d, |d|) == Run(c, r, TimeExited(c, w, time), b + d, |b + d|)
  {
    var w := Run(c, r, t, a, |a|);
    var x, z := Run(c, r, t, a + b, |a + b|), TimeExited(c, w, time);
    var y := Closed(c, x, TimeExit, time, ClosingPrice(w));
    RunAppend(c, r, t, a, b, |b|);
    RunAppend(c, r, z, b, d, |d|);
    SameRun(c, r, z, w, b, |b|);
    ExitedStays(c, r, z, b, |b|);
    assert Run(c, r, z, b, |b|) == y;
  }

  /** Trades from the cutoff on buy nothing. */
  lemma {:induction false} NoLateEntry(c: Clock, r: Risk, t: Ticker, a: seq<Tick>, n: nat)
    requires n <= |a| && !t.position.held && forall k | k in a && Accepts(c, k) :: k.time >= c.cutoff
    ensures !Run(c, r, t, a, n).position.held
  {
    if n > 0 {
      NoLateEntry(c, r, t, a, n - 1);
      assert a[n - 1] in a;
    }
  }

  // ---- Outcomes ----

  ghost predicate ActsAfterEntry(c: Clock, o: Opening, a: seq<Tick>, n: nat)
    requires n <= |a|
  {
    var e := FirstEntry(c, o, a, n);
    e.Some? ==> forall j | e.value < j < n :: a[j].allow
  }

  lemma LevelsSurroundEntry(r: Risk, entry: real)
    requires RiskOk(r) && entry > 0.0
    ensures StopLevel(r, entry) < entry < Target(r, entry)
  {
    assert entry * (1.0 + r.takeProfit) == entry + entry * r.takeProfit && entry * r.takeProfit > 0.0;
    assert entry * (1.0 - r.stopLoss) == entry - entry * r.stopLoss && entry * r.stopLoss > 0.0;
  }

  lemma UntriggeredIsInside(c: Clock, r: Risk, o: Opening, a: seq<Tick>, n: nat)
    requires n <= |a| && AllAccepted(c, a) && RiskOk(r) && ActsAfterEntry(c, o, a, n)
    ensures var p := ExpectedPosition(c, r, o, a, n);
      p.held && !p.exited ==> 0 < n && p.stop < a[n - 1].price < p.target
  {
    var e := FirstEntry(c, o, a, n);
    if e.Some? && FirstExit(r, a, e.value, n).None? {
      assert Accepts(c, a[e.value]);
      LevelsSurroundEntry(r, a[e.value].price);
      if e.value < n - 1 {
        assert !Triggering(r, a, e.value)(n - 1);
      }
    }
  }

  /** Between trades an open position's last price lies strictly inside its levels. */
  lemma OpenMeansInsideLevels(c: Clock, r: Risk, t: Ticker, a: seq<Tick>, n: nat)
    requires n <= |a| && AllAccepted(c, a) && RiskOk(r) && Fresh(t) && ActsAfterEntry(c, t.opening, a, n)
    ensures var u := Run(c, r, t, a, n);
      Open(u) ==> u.position.stop < u.market.lastPrice < u.position.target
  {
    RunMeetsSpec(c, r, t, a, n);
    UntriggeredIsInside(c, r, t.opening, a, n);
  }

  lemma ReturnMonotone(entry: real, p: real, q: real)
    requires entry > 0.0 && p <= q
    ensures Return(entry, p) <= Return(entry, q)
  {
    QuotientOrder(p - entry, entry, Return(entry, q));
    QuotientOrder(q - entry, entry, Return(entry, q));
  }

  /** The exit reason says exactly where the realised return lies. */
  ghost predicate OutcomeMatchesReason(r: Risk, p: Position)
    requires p.entryPrice > 0.0
  {
    var x := Return(p.entryPrice, p.exitPrice);
    && (p.reason == Profit <==> x >= r.takeProfit)
    && (p.reason == Stop <==> x <= -r.stopLoss)
    && (p.reason == TimeExit <==> -r.stopLoss < x < r.takeProfit)
  }

  lemma OutcomeFromLevels(r: Risk, p: Position)
    requires RiskOk(r) && p.entryPrice > 0.0
    requires p.reason == Profit <==> p.exitPrice >= Target(r, p.entryPrice)
    requires p.reason == Stop <==> p.exitPrice <= StopLevel(r, p.entryPrice)
    requires p.reason == TimeExit <==> StopLevel(r, p.entryPrice) < p.exitPrice < Target(r, p.entryPrice)
    ensures OutcomeMatchesReason(r, p)
  {
  }

  /** After the forced close every position taken is finished, with the outcome its reason names. */
  lemma FinishedOutcome(c: Clock, r: Risk, t: Ticker, a: seq<Tick>, n: nat, time: int)
    requires n <= |a| && AllAccepted(c, a) && RiskOk(r) && Fresh(t) && ActsAfterEntry(c, t.opening, a, n)
    ensures var p := TimeExited(c, Run(c, r, t, a, n), time).position;
      p.held ==> p.exited && p.entryPrice > 0.0 && OutcomeMatchesReason(r, p)
  {
    RunMeetsSpec(c, r, t, a, n);
    UntriggeredIsInside(c, r, t.opening, a, n);
    var p := TimeExited(c, Expected(c, r, t, a, n), time).position;
    var e := FirstEntry(c, t.opening, a, n);
    if e.Some? {
      assert Accepts(c, a[e.value]) && Accepts(c, a[n - 1]);
      LevelsSurroundEntry(r, a[e.value].price);
      var x := FirstExit(r, a, e.value, n);
      if x.Some? {
        assert Triggering(r, a, e.value)(x.value);
      }
      OutcomeFromLevels(r, p);
    }
  }

  /** Entry, exit and last prices all lie between the recorded extremes. */
  ghost predicate Bracketed(t: Ticker) {
    var p, x := t.position, t.excursion;
    p.held ==>
      && p.entryTime.Some? && p.exited
      && 0.0 < x.minPrice <= p.entryPrice <= x.maxPrice
      && x.minPrice <= t.market.lastPrice <= x.maxPrice
      && x.minPrice <= p.exitPrice <= x.maxPrice
  }

  lemma FinishedBracketed(c: Clock, r: Risk, t: Ticker, a: seq<Tick>, n: nat, time: int)
    requires n <= |a| && AllAccepted(c, a) && RiskOk(r) && Fresh(t) && Chronological(a)
    ensures Bracketed(TimeExited(c, Run(c, r, t, a, n), time))
  {
    RunMeetsSpec(c, r, t, a, n);
    var e := FirstEntry(c, t.opening, a, n);
    if e.Some? {
      var lo := Trough(a, e.value, n);
      assert Accepts(c, a[lo]);
      assert a[n - 1].time >= a[e.value].time;
      var x := FirstExit(r, a, e.value, n);
      if x.Some? {
        assert a[x.value].time >= a[e.value].time;
      }
    }
  }
}
