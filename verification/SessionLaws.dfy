/**
 What a whole replayed session guarantees for each tracked ticker and its report row,
 whatever the trades and however the filters changed between them.
 */
module SessionLaws {
  import opened Wrappers
  import opened Tape
  import opened Lifecycle
  import opened ReplayLaws
  import opened Pipeline
  import Report

  lemma SeedOfAgrees(c: Clock, r: Risk, t: Ticker, a: seq<Tick>, complete: bool)
    requires ClockOk(c) && Fresh(t) && BeforeSelection(c, a)
    ensures Masked(SeedOf(c, t, a, complete)) == Masked(Run(c, r, t, a, |a|))
  {
    SeedAgrees(c, r, t, a, |a|);
  }

  /** Up to scratch fields, a ticker at the end is the declarative description of the accepted tape, closed by time. */
  lemma EndedMeetsSpec(
    c: Clock, r: Risk, sym: string, o: Opening, opening: seq<Tick>, complete: bool, a: seq<Tick>)
    requires ClockOk(c) && RiskOk(r) && BeforeSelection(c, opening)
    ensures
      var s := Kept(c, opening + a, |opening + a|);
      Masked(Ended(c, r, sym, o, opening, complete, a))
        == Masked(TimeExited(c, Expected(c, r, Base(sym, o), s, |s|), c.exit))
  {
    var t, tape := Base(sym, o), opening + a;
    SeedOfAgrees(c, r, t, opening, complete);
    RunAgrees(c, r, SeedOf(c, t, opening, complete), Run(c, r, t, opening, |opening|), a, |a|);
    RunAppend(c, r, t, opening, a, |a|);
    ReplayMeetsSpec(c, r, t, tape);
    var u := Run(c, r, SeedOf(c, t, opening, complete), a, |a|);
    var v := Run(c, r, t, tape, |tape|);
    assert Masked(u) == Masked(v);
  }

  /** Once a trade may act, every later one may. */
  ghost predicate Latched(a: seq<Tick>) {
    forall i, j | 0 <= i < j < |a| && a[i].allow :: a[j].allow
  }

  lemma ReplayLatches(day: seq<Tick>)
    ensures Latched(Permitted(day, true))
  {
  }

  lemma {:induction false} LiveAllows(feed: seq<(string, Tick)>, n: nat, sym: string)
    requires n <= |feed|
    ensures forall k | k in LiveTape(feed, n, sym) :: k.allow
  {
    if n > 0 {
      LiveAllows(feed, n - 1, sym);
    }
  }

  lemma {:induction false} JoiningLateLatches(
    missed: string -> seq<Tick>, feed: seq<(string, Tick)>, later: seq<(string, Tick)>, sym: string)
    ensures Latched(JoinedLate(missed, feed)(sym) + LiveTape(later, |later|, sym))
  {
    LiveAllows(feed, |feed|, sym);
    LiveAllows(later, |later|, sym);
    var live := LiveTape(feed, |feed|, sym) + LiveTape(later, |later|, sym);
    var a := Permitted(missed(sym), false) + live;
    forall i, j | 0 <= i < j < |a| && a[i].allow ensures a[j].allow {
      assert |missed(sym)| <= i;
      assert a[j] == live[j - |missed(sym)|] && live[j - |missed(sym)|] in live;
    }
    assert Latched(a);
    assert JoinedLate(missed, feed)(sym) + LiveTape(later, |later|, sym) == a;
  }

  /** Trades of the feed stamped from the cutoff on stay so on their tapes. */
  lemma {:induction false} LateFeed(c: Clock, feed: seq<(string, Tick)>, n: nat, sym: string)
    requires n <= |feed| && forall p | p in feed && Accepts(c, p.1) :: p.1.time >= c.cutoff
    ensures forall k | k in LiveTape(feed, n, sym) && Accepts(c, k) :: k.time >= c.cutoff
  {
    if n > 0 {
      LateFeed(c, feed, n - 1, sym);
      assert feed[n - 1] in feed;
      assert Accepts(c, feed[n - 1].1.(allow := true)) <==> Accepts(c, feed[n - 1].1);
    }
  }

  /** From the selection time on, once an accepted trade may act every later one may. */
  ghost predicate LatchedFrom(c: Clock, a: seq<Tick>) {
    forall i, j | 0 <= i < j < |a| && Accepts(c, a[i]) && a[i].time >= c.sel && a[i].allow :: a[j].allow
  }

  lemma {:induction false} KeptLatched(c: Clock, a: seq<Tick>, n: nat)
    requires n <= |a| && LatchedFrom(c, a)
    ensures LatchedFrom(c, Kept(c, a, n))
    ensures forall j, i | 0 <= j < |Kept(c, a, n)| && n <= i < |a| ::
      Kept(c, a, n)[j].time >= c.sel && Kept(c, a, n)[j].allow ==> a[i].allow
  {
    if n > 0 {
      KeptLatched(c, a, n - 1);
    }
  }

  /** An entry needs a trade that may act, so every trade after it may. */
  lemma LaterTradesAct(c: Clock, o: Opening, opening: seq<Tick>, a: seq<Tick>)
    requires ClockOk(c) && BeforeSelection(c, opening) && Latched(a)
    ensures
      var s := Kept(c, opening + a, |opening + a|);
      ActsAfterEntry(c, o, s, |s|)
  {
    var tape := opening + a;
    var s := Kept(c, tape, |tape|);
    assert forall i | 0 <= i < |opening| && Accepts(c, opening[i]) :: SeedAccepts(opening[i]);
    KeptLatched(c, tape, |tape|);
    var e := FirstEntry(c, o, s, |s|);
    if e.Some? {
      assert Eligible(c, o, s)(e.value);
    }
  }

  /** After the forced close nothing is open, and what was bought ended as its reason says. */
  ghost predicate EndsWell(r: Risk, t: Ticker) {
    && !Open(t)
    && Bracketed(t)
    && (t.position.held ==> t.position.exited && t.position.entryPrice > 0.0 && OutcomeMatchesReason(r, t.position))
  }

  lemma EndedEndsWell(
    c: Clock, r: Risk, sym: string, o: Opening, opening: seq<Tick>, complete: bool, a: seq<Tick>)
    requires ClockOk(c) && RiskOk(r) && BeforeSelection(c, opening)
    requires InOrder(c, opening + a) && Latched(a)
    ensures EndsWell(r, Ended(c, r, sym, o, opening, complete, a))
  {
    var t, tape := Base(sym, o), opening + a;
    var s := Kept(c, tape, |tape|);
    EndedMeetsSpec(c, r, sym, o, opening, complete, a);
    RunMeetsSpec(c, r, t, s, |s|);
    LaterTradesAct(c, o, opening, a);
    KeptChronological(c, tape, |tape|);
    FinishedOutcome(c, r, t, s, |s|, c.exit);
    FinishedBracketed(c, r, t, s, |s|, c.exit);
  }

  // ---- The timed close may fall among the trades ----

  lemma {:induction false} KeptComesFrom(c: Clock, a: seq<Tick>, n: nat)
    requires n <= |a|
    ensures forall k | k in Kept(c, a, n) :: Accepts(c, k) && k in a[..n]
  {
    if n > 0 {
      KeptComesFrom(c, a, n - 1);
      assert a[..n] == a[..n - 1] + [a[n - 1]];
    }
  }

  /** The entry time of a position is that of an accepted trade. */
  lemma EntryFromTape(
    c: Clock, r: Risk, sym: string, o: Opening, opening: seq<Tick>, complete: bool, a: seq<Tick>)
    requires ClockOk(c) && RiskOk(r) && BeforeSelection(c, opening)
    requires Ended(c, r, sym, o, opening, complete, a).position.held
    ensures exists k | k in opening + a && Accepts(c, k) ::
      Ended(c, r, sym, o, opening, complete, a).position.entryTime == Some(k.time)
  {
    var tape := opening + a;
    var s := Kept(c, tape, |tape|);
    EndedMeetsSpec(c, r, sym, o, opening, complete, a);
    var e := FirstEntry(c, o, s, |s|);
    KeptComesFrom(c, tape, |tape|);
    assert tape[..|tape|] == tape;
    assert s[e.value] in s;
  }

  ghost predicate NoneBefore(c: Clock, time: Option<int>, a: seq<Tick>) {
    time.Some? && forall k | k in a && Accepts(c, k) :: time.value <= k.time
  }

  /** A finished position stays finished, and its extremes go on covering the last price. */
  lemma {:induction false} WellStaysThroughout(c: Clock, r: Risk, t: Ticker, a: seq<Tick>, n: nat)
    requires n <= |a| && EndsWell(r, t) && t.position.held && NoneBefore(c, t.position.entryTime, a)
    ensures EndsWell(r, Run(c, r, t, a, n)) && Run(c, r, t, a, n).position == t.position
  {
    if n > 0 {
      WellStaysThroughout(c, r, t, a, n - 1);
      assert a[n - 1] in a;
      hide EndsWell, Step;
    }
  }

  lemma InOrderPrefix(c: Clock, a: seq<Tick>, b: seq<Tick>)
    requires InOrder(c, a + b)
    ensures InOrder(c, a)
    ensures forall x, y | x in a && y in b && Accepts(c, x) && Accepts(c, y) :: x.time <= y.time
  {
    assert forall i | 0 <= i < |a| :: (a + b)[i] == a[i];
    forall x, y | x in a && y in b && Accepts(c, x) && Accepts(c, y) ensures x.time <= y.time {
      var i :| 0 <= i < |a| && a[i] == x;
      var j :| 0 <= j < |b| && b[j] == y;
      assert (a + b)[i] == x && (a + b)[|a| + j] == y;
    }
  }

  /** The ticker when trades `b` were still processed after the close. */
  function ClosedDuring(
    c: Clock, r: Risk, sym: string, o: Opening, opening: seq<Tick>, complete: bool, a: seq<Tick>, b: seq<Tick>): Ticker
  {
    Run(c, r, Ended(c, r, sym, o, opening, complete, a), b, |b|)
  }

  /**
   With the close among the trades everything ends well unless a later trade buys a
   position that no later trade closes.
   */
  lemma ClosedDuringEndsWell(
    c: Clock, r: Risk, sym: string, o: Opening, opening: seq<Tick>, complete: bool, a: seq<Tick>, b: seq<Tick>)
    requires ClockOk(c) && RiskOk(r) && BeforeSelection(c, opening)
    requires InOrder(c, opening + a + b) && Latched(a + b)
    ensures
      var u := ClosedDuring(c, r, sym, o, opening, complete, a, b);
      && (EndsWell(r, u) <==> !Open(u))
      && (Ended(c, r, sym, o, opening, complete, a).position.held ==> !Open(u))
  {
    var t := SeedOf(c, Base(sym, o), opening, complete);
    var w := Ended(c, r, sym, o, opening, complete, a);
    var u := ClosedDuring(c, r, sym, o, opening, complete, a, b);
    CloseAnywhere(c, r, t, a, b, c.exit);
    InOrderPrefix(c, opening + a, b);
    if w.position.held {
      assert forall i | 0 <= i < |a| :: (a + b)[i] == a[i];
      EndedEndsWell(c, r, sym, o, opening, complete, a);
      EntryFromTape(c, r, sym, o, opening, complete, a);
      WellStaysThroughout(c, r, w, b, |b|);
    } else if !Open(u) {
      assert opening + a + b == opening + (a + b);
      EndedEndsWell(c, r, sym, o, opening, complete, a + b);
    }
  }

  /** A close that read an open position and closes it some trades later ends well too. */
  lemma {:induction false} LateCloseEndsWell(
    c: Clock, r: Risk, sym: string, o: Opening, opening: seq<Tick>, complete: bool,
    a: seq<Tick>, b: seq<Tick>, d: seq<Tick>)
    requires ClockOk(c) && RiskOk(r) && BeforeSelection(c, opening)
    requires InOrder(c, opening + a + (b + d)) && Latched(a + (b + d))
    requires var t := SeedOf(c, Base(sym, o), opening, complete); Open(Run(c, r, t, a, |a|))
    ensures
      var t := SeedOf(c, Base(sym, o), opening, complete);
      var price := ClosingPrice(Run(c, r, t, a, |a|));
      EndsWell(r, Run(c, r, Closed(c, Run(c, r, t, a + b, |a + b|), TimeExit, c.exit, price), d, |d|))
  {
    LateCloseIsClose(c, r, SeedOf(c, Base(sym, o), opening, complete), a, b, d, c.exit);
    ClosedDuringEndsWell(c, r, sym, o, opening, complete, a, b + d);
  }

  /** In particular if the trades after the close come from the cutoff on. */
  lemma LateTradesEndWell(
    c: Clock, r: Risk, sym: string, o: Opening, opening: seq<Tick>, complete: bool, a: seq<Tick>, b: seq<Tick>)
    requires ClockOk(c) && RiskOk(r) && BeforeSelection(c, opening)
    requires InOrder(c, opening + a + b) && Latched(a + b)
    requires forall k | k in b && Accepts(c, k) :: k.time >= c.cutoff
    ensures EndsWell(r, ClosedDuring(c, r, sym, o, opening, complete, a, b))
  {
    var w := Ended(c, r, sym, o, opening, complete, a);
    ClosedDuringEndsWell(c, r, sym, o, opening, complete, a, b);
    if !w.position.held {
      NoLateEntry(c, r, w, b, |b|);
    }
  }

  // ---- What a session's figures come from ----

  /** The seed holds the totals of its trades, and if it completed its last price and VWAP as the previous ones. */
  lemma SeedTells(c: Clock, r: Risk, sym: string, o: Opening, opening: seq<Tick>, complete: bool)
    requires ClockOk(c) && BeforeSelection(c, opening)
    ensures
      var u := SeedOf(c, Base(sym, o), opening, complete);
      var primed := complete && u.market.cumV > 0.0;
      && Totals(c, u.market, opening, |opening|)
      && u.market.prevPrice == (if primed then u.market.lastPrice else 0.0)
      && u.market.prevVwap == (if primed then u.market.vwap else 0.0)
      && !u.position.held && !u.position.exited && u.status == Tracking
  {
    var t := Base(sym, o);
    SeedOfAgrees(c, r, t, opening, complete);
    RunTotals(c, r, t, opening, |opening|);
    SeedPrimes(c, t, opening);
    SameTotals(c, SeedOf(c, t, opening, complete), Run(c, r, t, opening, |opening|), opening);
    SeedKeepsRest(c, t, opening, |opening|);
    hide Run, SeedRun, Totals;
  }

  /** The badge of a tracked ticker says where its position stands. */
  ghost predicate StatusTells(t: Ticker) {
    var p := t.position;
    t.status == if p.exited then p.reason else if p.held then Long else Tracking
  }

  lemma {:induction false} StatusStays(c: Clock, r: Risk, t: Ticker, a: seq<Tick>, n: nat)
    requires n <= |a| && StatusTells(t)
    ensures StatusTells(Run(c, r, t, a, n))
  {
    if n > 0 {
      StatusStays(c, r, t, a, n - 1);
    }
  }

  /** Before the close the market data of seed and trades are the totals of both together. */
  lemma SessionTotals(
    c: Clock, r: Risk, sym: string, o: Opening, opening: seq<Tick>, complete: bool, a: seq<Tick>)
    requires ClockOk(c) && BeforeSelection(c, opening)
    ensures Totals(c, Run(c, r, SeedOf(c, Base(sym, o), opening, complete), a, |a|).market, opening + a, |opening + a|)
  {
    var t, s := Base(sym, o), SeedOf(c, Base(sym, o), opening, complete);
    assert Fresh(t);
    hide *;
    SeedOfAgrees(c, r, t, opening, complete);
    RunAgrees(c, r, s, Run(c, r, t, opening, |opening|), a, |a|);
    RunAppend(c, r, t, opening, a, |a|);
    RunTotals(c, r, t, opening + a, |opening + a|);
    SameTotals(c, Run(c, r, s, a, |a|), Run(c, r, t, opening + a, |opening + a|), opening + a);
  }

  /** Only the clock closes by time. */
  lemma {:induction false} TradesCloseByLevels(c: Clock, r: Risk, t: Ticker, a: seq<Tick>, n: nat)
    requires n <= |a| && t.position.reason != TimeExit
    ensures Run(c, r, t, a, n).position.reason != TimeExit
  {
    if n > 0 {
      TradesCloseByLevels(c, r, t, a, n - 1);
    }
  }

  lemma SomethingCounted(
    c: Clock, r: Risk, sym: string, o: Opening, opening: seq<Tick>, complete: bool, a: seq<Tick>)
    requires ClockOk(c) && RiskOk(r) && BeforeSelection(c, opening)
    requires Open(Run(c, r, SeedOf(c, Base(sym, o), opening, complete), a, |a|))
    ensures LastTrade(c, opening + a, |opening + a|).Some?
  {
    hide Run, SeedOf, Base, LastTrade;
    EntryFromTape(c, r, sym, o, opening, complete, a);
    var k :| k in opening + a && Accepts(c, k);
    assert Counts(c, k);
  }

  /** A position left by time was left at the exit time, at the price of the last trade counted on the tape. */
  ghost predicate LeftInTime(c: Clock, p: Position, tape: seq<Tick>) {
    var k := LastTrade(c, tape, |tape|);
    p.reason == TimeExit ==>
      && p.held && p.exited && k.Some? && p.exitPrice == k.value.price
      && p.exitTime == Some(c.exit) && p.exitMinutes == Lifecycle.Elapsed(c, c.exit)
  }

  lemma TimeExitAtLastTrade(
    c: Clock, r: Risk, sym: string, o: Opening, opening: seq<Tick>, complete: bool, a: seq<Tick>, b: seq<Tick>)
    requires ClockOk(c) && RiskOk(r) && BeforeSelection(c, opening)
    ensures LeftInTime(c, ClosedDuring(c, r, sym, o, opening, complete, a, b).position, opening + a)
  {
    var t := SeedOf(c, Base(sym, o), opening, complete);
    var w := Run(c, r, t, a, |a|);
    SeedKeepsRest(c, Base(sym, o), opening, |opening|);
    TradesCloseByLevels(c, r, t, a, |a|);
    if Open(w) {
      SessionTotals(c, r, sym, o, opening, complete, a);
      SomethingCounted(c, r, sym, o, opening, complete, a);
      CloseAnywhere(c, r, t, a, b, c.exit);
    } else {
      TradesCloseByLevels(c, r, w, b, |b|);
    }
  }

  lemma {:induction false} RunKeepsOpening(c: Clock, r: Risk, t: Ticker, a: seq<Tick>, n: nat)
    requires n <= |a|
    ensures Run(c, r, t, a, n).symbol == t.symbol && Run(c, r, t, a, n).opening == t.opening
  {
    if n > 0 {
      RunKeepsOpening(c, r, t, a, n - 1);
    }
  }

  /** A session with trades `b` after its close: all trades are in the totals, and time closed before `b`. */
  lemma SessionTells(
    c: Clock, r: Risk, sym: string, o: Opening, opening: seq<Tick>, complete: bool, a: seq<Tick>, b: seq<Tick>)
    requires ClockOk(c) && RiskOk(r) && BeforeSelection(c, opening)
    ensures
      var u := ClosedDuring(c, r, sym, o, opening, complete, a, b);
      && u.symbol == sym && u.opening == o
      && Totals(c, u.market, opening + a + b, |opening + a + b|)
      && LeftInTime(c, u.position, opening + a) && StatusTells(u)
  {
    var t := SeedOf(c, Base(sym, o), opening, complete);
    SeedTells(c, r, sym, o, opening, complete);
    StatusStays(c, r, t, a, |a|);
    StatusStays(c, r, Ended(c, r, sym, o, opening, complete, a), b, |b|);
    SeedKeepsRest(c, Base(sym, o), opening, |opening|);
    RunKeepsOpening(c, r, t, a, |a|);
    RunKeepsOpening(c, r, Ended(c, r, sym, o, opening, complete, a), b, |b|);
    SessionTotals(c, r, sym, o, opening, complete, a + b);
    assert opening + (a + b) == opening + a + b;
    CloseAnywhere(c, r, t, a, b, c.exit);
    TimeExitAtLastTrade(c, r, sym, o, opening, complete, a, b);
    hide Run, Totals, SeedRun, LeftInTime;
  }

  /** The trades missed before joining open, close and log nothing. */
  lemma {:induction false} CaughtUpTakesNothing(
    c: Clock, r: Risk, t: Ticker, missed: string -> seq<Tick>, feed: seq<(string, Tick)>, sym: string)
    ensures var tape := JoinedLate(missed, feed)(sym);
      && |missed(sym)| <= |tape|
      && Run(c, r, t, tape, |missed(sym)|).position == t.position
      && Emitted(c, r, t, tape, |missed(sym)|) == []
  {
    CatchUpIsPassive(c, r, t, JoinedLate(missed, feed)(sym), |missed(sym)|);
  }

  /** A report row inside its extremes, with a realised return where its exit reason says. */
  ghost predicate SoundRow(r: Risk, row: Report.Row) {
    && row.maePct <= row.realPct <= row.mfePct
    && row.maePct <= row.holdPct <= row.mfePct
    && row.maePct <= 0.0 <= row.mfePct
    && (row.reason == Profit <==> row.realPct >= r.takeProfit)
    && (row.reason == Stop <==> row.realPct <= -r.stopLoss)
    && (row.reason == TimeExit <==> -r.stopLoss < row.realPct < r.takeProfit)
  }

  lemma RowIsSound(r: Risk, t: Ticker, end: int)
    requires EndsWell(r, t) && Report.Taken(t)
    ensures SoundRow(r, Report.RowOf(t, end))
  {
    Report.RowIsBracketed(t, end);
  }

  lemma {:induction false} RowsAreSound(r: Risk, states: seq<Ticker>, n: nat, end: int)
    requires n <= |states| && forall t | t in states :: EndsWell(r, t)
    ensures forall row | row in Report.Rows(states, n, end) :: SoundRow(r, row)
  {
    if n > 0 {
      RowsAreSound(r, states, n - 1, end);
      if Report.Taken(states[n - 1]) {
        RowIsSound(r, states[n - 1], end);
      }
    }
  }
}
