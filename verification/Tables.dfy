/**
 What the engine's loops do to the ticker table: one predicate for each phase, how one
 more turn of its loop extends it, and what the phases amount to together.
 */
module Tables {
  import opened Wrappers
  import opened Tape
  import opened Sorting
  import opened Pipeline
  import opened SessionLaws
  import opened EventLog
  import ReplayLaws
  import Fanout
  import OpenRange
  import Report
  import SoldOff

  /** No update ever changes the symbol a ticker was created with. */
  ghost predicate Keyed(m: map<string, Ticker>) {
    forall s | s in m :: m[s].symbol == s
  }

  /** Table and log after the first `n` symbols of the watchlist were looked at for the forced close. */
  ghost predicate Closing(
    c: Clock, before: map<string, Ticker>, after: map<string, Ticker>, log0: seq<Event>, log: seq<Event>,
    wl: seq<string>, n: nat, time: int)
  {
    && n <= |wl|
    && ClosedOut(c, before, after, wl[..n], time)
    && log == log0 + CloseEvents(before, wl, n, time)
  }

  lemma NoneClosed(c: Clock, m: map<string, Ticker>, log: seq<Event>, wl: seq<string>, time: int)
    ensures Closing(c, m, m, log, log, wl, 0, time)
  {
  }

  lemma AllClosed(
    c: Clock, before: map<string, Ticker>, after: map<string, Ticker>, log0: seq<Event>, log: seq<Event>,
    wl: seq<string>, time: int)
    requires Closing(c, before, after, log0, log, wl, |wl|, time)
    ensures ClosedOut(c, before, after, wl, time) && log == log0 + CloseEvents(before, wl, |wl|, time)
  {
    assert wl[..|wl|] == wl;
  }

  lemma ClosingOneMore(
    c: Clock, before: map<string, Ticker>, after: map<string, Ticker>, log0: seq<Event>, log: seq<Event>,
    wl: seq<string>, n: nat, time: int)
    requires Closing(c, before, after, log0, log, wl, n, time) && n < |wl|
    ensures var sym := wl[n];
      if sym in after && Open(after[sym])
      then Closing(c, before, after[sym := TimeExited(c, after[sym], time)], log0, log + [Event(TimeExit, sym, time)],
                   wl, n + 1, time)
      else Closing(c, before, after, log0, log, wl, n + 1, time)
  {
    assert wl[..n + 1] == wl[..n] + [wl[n]];
    var sym := wl[n];
    if sym in before {
      LeftIs(c, before[sym], TimeExited(c, before[sym], time), time);
      LeftIs(c, before[sym], after[sym], time);
    }
    hide LeftByTime;
  }

  /** Table and log after the first `n` trades of `sym` were processed. */
  ghost predicate Fed(
    c: Clock, r: Risk, before: map<string, Ticker>, after: map<string, Ticker>, log0: seq<Event>, log: seq<Event>,
    sym: string, a: seq<Tick>, n: nat)
  {
    && n <= |a| && sym in before
    && after == before[sym := Run(c, r, before[sym], a, n)]
    && log == log0 + Emitted(c, r, before[sym], a, n)
  }

  lemma FedOneMore(
    c: Clock, r: Risk, before: map<string, Ticker>, after: map<string, Ticker>, log0: seq<Event>, log: seq<Event>,
    sym: string, a: seq<Tick>, n: nat)
    requires Fed(c, r, before, after, log0, log, sym, a, n) && n < |a|
    ensures sym in after
    ensures Fed(c, r, before, after[sym := Step(c, r, after[sym], a[n])],
                log0, log + Emits(c, after[sym], a[n]), sym, a, n + 1)
    ensures !Accepts(c, a[n]) ==> Fed(c, r, before, after, log0, log, sym, a, n + 1)
  {
    hide Run, Emitted, Step, Emits;
    RunUnfolds(c, r, before[sym], a, n + 1);
    if !Accepts(c, a[n]) {
      ReplayLaws.RejectedStep(c, r, after[sym], a[n]);
    }
  }

  /** Copies of the candidates' tickers, marked as tracked. */
  function TrackingOf(m: map<string, Ticker>, candidates: seq<string>): map<string, Ticker> {
    map s | s in candidates && s in m :: m[s].(status := Tracking)
  }

  /** The listed tickers have been seeded, the others not yet. */
  ghost predicate SeededUpTo(
    c: Clock, before: map<string, Ticker>, after: map<string, Ticker>, done: seq<string>,
    opening: string -> seq<Tick>, complete: string -> bool) {
    && after.Keys == before.Keys
    && forall s | s in after ::
         after[s] == if s in done then SeedOf(c, before[s], opening(s), complete(s)) else before[s]
  }

  /** Before tracking, the store holds watchlist symbols that no trade has touched. */
  ghost predicate OnlyFresh(m: map<string, Ticker>, wl: seq<string>) {
    forall s | s in m :: s in wl && m[s].symbol == s && Fresh(m[s])
  }

  /** The candidates among the listed symbols are marked, nothing else changes. */
  ghost predicate MarkedUpTo(f: Filters, before: map<string, Ticker>, after: map<string, Ticker>, wl: seq<string>) {
    && after.Keys == before.Keys
    && forall s | s in after ::
         after[s] == if s in wl && IsCandidate(f, before, s) then Marked(before[s]) else before[s]
  }

  /** Table and list after the first `n` symbols of the watchlist were considered. */
  ghost predicate Marking(
    f: Filters, before: map<string, Ticker>, after: map<string, Ticker>, wl: seq<string>, n: nat, listed: seq<string>)
  {
    && n <= |wl|
    && MarkedUpTo(f, before, after, wl[..n])
    && listed == Candidates(f, before, wl, n)
  }

  /** Marking changes neither the fields that selection reads nor the mark of a marked ticker. */
  lemma MarkingOneMore(
    f: Filters, before: map<string, Ticker>, after: map<string, Ticker>, wl: seq<string>, n: nat, listed: seq<string>)
    requires Marking(f, before, after, wl, n, listed) && n < |wl|
    ensures var sym := wl[n];
      if IsCandidate(f, after, sym)
      then Marking(f, before, after[sym := Marked(after[sym])], wl, n + 1, listed + [sym])
      else Marking(f, before, after, wl, n + 1, listed)
  {
    assert wl[..n + 1] == wl[..n] + [wl[n]];
  }

  lemma MarkedHas(
    f: Filters, before: map<string, Ticker>, after: map<string, Ticker>, wl: seq<string>, sel: seq<string>)
    requires MarkedUpTo(f, before, after, wl)
    requires forall s :: s in sel <==> s in wl && IsCandidate(f, before, s)
    ensures forall s | s in sel :: s in after
  {
  }

  /** The figures with which the selected tickers of a table are tracked. */
  ghost function PicksFrom(m: map<string, Ticker>, sel: seq<string>, avg: string -> Option<real>)
    : map<string, Opening>
  {
    map s | s in sel && s in m :: WithAvg(m[s].opening, avg(s))
  }

  /** Tracked tickers before their seed: only the opening fields are set. */
  ghost predicate BasesOf(picks: map<string, Opening>, m: map<string, Ticker>) {
    && m.Keys == picks.Keys
    && forall s | s in m :: m[s] == Base(s, picks[s])
  }

  lemma {:induction false} KnownAt(
    m: map<string, Ticker>, sel: seq<string>, wl: seq<string>, avg: string -> Option<real>,
    history: seq<(string, History)>, s: string)
    requires OnlyFresh(m, wl) && Fanout.OnceEach(sel, HistoryFor(m, avg), history)
    ensures Fanout.Lookup(Fanout.Fold(TrackingOf(m, sel), history, |history|, Fanout.Key, WithHistory), s)
         == if s in sel && s in m then Some(Base(s, WithAvg(m[s].opening, avg(s)))) else None
  {
    hide OpenRange.PercentOf;
    Fanout.CollectedAt(sel, HistoryFor(m, avg), history, TrackingOf(m, sel), WithHistory, s);
  }

  /** Whatever order the history arrives in, each tracked ticker gets its own figures. */
  lemma {:induction false} KnownAre(
    m: map<string, Ticker>, sel: seq<string>, wl: seq<string>, avg: string -> Option<real>,
    history: seq<(string, History)>)
    requires OnlyFresh(m, wl) && Fanout.OnceEach(sel, HistoryFor(m, avg), history)
    ensures BasesOf(
      PicksFrom(m, sel, avg), Fanout.Fold(TrackingOf(m, sel), history, |history|, Fanout.Key, WithHistory))
  {
    hide Fanout.Fold, OnlyFresh, Fanout.OnceEach, WithAvg, Base;
    var known := Fanout.Fold(TrackingOf(m, sel), history, |history|, Fanout.Key, WithHistory);
    forall s
      ensures Fanout.Lookup(known, s) ==
        if s in sel && s in m then Some(Base(s, WithAvg(m[s].opening, avg(s)))) else None
    {
      KnownAt(m, sel, wl, avg, history, s);
    }
    forall s ensures s in known <==> s in sel && s in m {
      assert Fanout.Lookup(known, s).Some? <==> s in known;
    }
    forall s | s in known ensures known[s] == Base(s, WithAvg(m[s].opening, avg(s))) {
      assert Fanout.Lookup(known, s) == Some(known[s]);
    }
  }

  /** Each tracked ticker is the seed of the opening figures it was picked with. */
  ghost predicate SeedsOf(
    c: Clock, picks: map<string, Opening>, m: map<string, Ticker>,
    opening: string -> seq<Tick>, complete: string -> bool)
  {
    && m.Keys == picks.Keys
    && forall s | s in m :: m[s] == SeedOf(c, Base(s, picks[s]), opening(s), complete(s))
  }

  ghost predicate Named(picks: map<string, Opening>, wl: seq<string>) {
    "" !in wl && forall s | s in picks :: s in wl
  }

  lemma SeedsAreNamed(
    c: Clock, picks: map<string, Opening>, m: map<string, Ticker>,
    opening: string -> seq<Tick>, complete: string -> bool, wl: seq<string>)
    requires SeedsOf(c, picks, m, opening, complete) && Named(picks, wl)
    ensures "" !in m
  {
  }

  lemma {:induction false} SeededBases(
    c: Clock, picks: map<string, Opening>, known: map<string, Ticker>, tracked: map<string, Ticker>,
    candidates: seq<string>, opening: string -> seq<Tick>, complete: string -> bool)
    requires BasesOf(picks, known) && SeededUpTo(c, known, tracked, candidates, opening, complete)
    requires forall s | s in picks :: s in candidates
    ensures SeedsOf(c, picks, tracked, opening, complete) && Keyed(tracked)
    ensures forall s | s in tracked :: tracked[s].position == FLAT
  {
    forall s | s in tracked ensures tracked[s].symbol == s && tracked[s].position == FLAT {
      SeedKeepsRest(c, known[s], opening(s), |opening(s)|);
    }
  }

  /** Each ticker has been fed its tape. */
  ghost predicate Played(
    c: Clock, r: Risk, before: map<string, Ticker>, after: map<string, Ticker>, tapes: string -> seq<Tick>) {
    && after.Keys == before.Keys
    && forall s | s in after :: after[s] == Run(c, r, before[s], tapes(s), |tapes(s)|)
  }

  /** Only the symbols in `done` have been fed so far. */
  ghost function Partly(tapes: string -> seq<Tick>, done: seq<string>): string -> seq<Tick> {
    (s: string) => if s in done then tapes(s) else []
  }

  lemma PlayedOneMore(
    c: Clock, r: Risk, before: map<string, Ticker>, after: map<string, Ticker>, tapes: string -> seq<Tick>,
    done: seq<string>, sym: string)
    requires Played(c, r, before, after, Partly(tapes, done)) && sym in after && sym !in done
    ensures Played(c, r, before, after[sym := Run(c, r, after[sym], tapes(sym), |tapes(sym)|)],
                   Partly(tapes, done + [sym]))
  {
  }

  /** What replaying the first `n` symbols of the list logs: the events of one after those of the other. */
  ghost function Replayed(
    c: Clock, r: Risk, m: map<string, Ticker>, tapes: string -> seq<Tick>, order: seq<string>, n: nat): seq<Event>
    requires n <= |order|
  {
    if n == 0 then []
    else
      var s := order[n - 1];
      Replayed(c, r, m, tapes, order, n - 1) + if s in m then Emitted(c, r, m[s], tapes(s), |tapes(s)|) else []
  }

  lemma NothingPlayed(
    c: Clock, r: Risk, m: map<string, Ticker>, tapes: string -> seq<Tick>, order: seq<string>)
    ensures Played(c, r, m, m, Partly(tapes, order[..0])) && Replayed(c, r, m, tapes, order, 0) == []
  {
  }

  /** The symbol that comes next is tracked and has not been fed yet. */
  lemma NextUntouched(
    c: Clock, r: Risk, before: map<string, Ticker>, after: map<string, Ticker>, tapes: string -> seq<Tick>,
    order: seq<string>, i: nat)
    requires i < |order| && Distinct(order) && Fanout.Lists(order, before)
    requires Keyed(after) && Played(c, r, before, after, Partly(tapes, order[..i]))
    ensures var sym := order[i];
      && sym in after && sym in before && after[sym].symbol == sym
      && sym !in order[..i] && after[sym] == before[sym]
  {
    assert order[i] in order && order[i] !in order[..i];
  }

  lemma AllPlayed(
    c: Clock, r: Risk, before: map<string, Ticker>, after: map<string, Ticker>, tapes: string -> seq<Tick>,
    order: seq<string>)
    requires Fanout.Lists(order, before) && Played(c, r, before, after, Partly(tapes, order[..|order|]))
    ensures Played(c, r, before, after, tapes) && after.Keys == before.Keys
  {
    assert order[..|order|] == order;
  }

  /** The next symbol's replay logs what it says. */
  lemma {:induction false} ToldNext(
    c: Clock, r: Risk, m: map<string, Ticker>, tapes: string -> seq<Tick>, order: seq<string>, i: nat,
    start: seq<Event>, log: seq<Event>)
    requires i < |order| && order[i] in m && Told(log) == start + Replayed(c, r, m, tapes, order, i)
    ensures
      var t, a := m[order[i]], tapes(order[i]);
      Told(log + Emitted(c, r, t, a, |a|)) == start + Replayed(c, r, m, tapes, order, i + 1)
  {
    hide Told, Emitted;
    var t, a := m[order[i]], tapes(order[i]);
    RunTrail(c, r, t, a, |a|);
    ToldMore(log, Emitted(c, r, t, a, |a|));
  }

  lemma PermittedAt(day: string -> seq<Tick>, allow: bool, sym: string)
    ensures Permitting(day, allow)(sym) == Permitted(day(sym), allow)
  {
  }

  /** What replaying the whole table in symbol order logs. */
  ghost function ReplaySays(
    c: Clock, r: Risk, m: map<string, Ticker>, tapes: string -> seq<Tick>): seq<Event>
  {
    Replayed(c, r, m, tapes, Fanout.SymbolsOf(m), |Fanout.SymbolsOf(m)|)
  }

  lemma SaysInOrder(c: Clock, r: Risk, m: map<string, Ticker>, tapes: string -> seq<Tick>, order: seq<string>)
    requires order == Fanout.SymbolsOf(m)
    ensures ReplaySays(c, r, m, tapes) == Replayed(c, r, m, tapes, order, |order|)
  {
  }

  /** Each ticker fed with its tape. */
  ghost function PlayedTable(
    c: Clock, r: Risk, m: map<string, Ticker>, tapes: string -> seq<Tick>): map<string, Ticker>
  {
    map s | s in m :: Run(c, r, m[s], tapes(s), |tapes(s)|)
  }

  /** A day's replay and close: each ticker's events in symbol order, the 11AM event, the timed exits by watchlist. */
  ghost function DaySays(
    c: Clock, r: Risk, m: map<string, Ticker>, tapes: string -> seq<Tick>, wl: seq<string>): seq<Event>
  {
    ReplaySays(c, r, m, tapes)
    + [Event(Eleven, "", c.exit)] + CloseEvents(PlayedTable(c, r, m, tapes), wl, |wl|, c.exit)
  }

  lemma CloseTold(m: map<string, Ticker>, wl: seq<string>, time: int, log: seq<Event>)
    ensures
      var eleven, closes := [Event(Eleven, "", time)], CloseEvents(m, wl, |wl|, time);
      Told(log + eleven + closes) == Told(log) + eleven + closes
  {
    hide Told, CloseEvents;
    var eleven := [Event(Eleven, "", time)];
    ToldMore(log, eleven);
    ClosesAreTold(m, wl, |wl|, time);
    ToldMore(log + eleven, CloseEvents(m, wl, |wl|, time));
  }

  lemma PlayedIs(
    c: Clock, r: Risk, m: map<string, Ticker>, played: map<string, Ticker>, tapes: string -> seq<Tick>)
    requires Played(c, r, m, played, tapes)
    ensures played == PlayedTable(c, r, m, tapes)
  {
    hide Run;
  }

  lemma DaySaysSo(
    c: Clock, r: Risk, m: map<string, Ticker>, played: map<string, Ticker>, tapes: string -> seq<Tick>, wl: seq<string>,
    start: seq<Event>)
    requires Played(c, r, m, played, tapes)
    ensures
      start + ReplaySays(c, r, m, tapes) + [Event(Eleven, "", c.exit)] + CloseEvents(played, wl, |wl|, c.exit)
        == start + DaySays(c, r, m, tapes, wl)
  {
    hide ReplaySays, CloseEvents, PlayedTable, Played;
    PlayedIs(c, r, m, played, tapes);
  }

  /** The tracked tickers after their seed. */
  ghost function SeedTable(
    c: Clock, picks: map<string, Opening>, opening: string -> seq<Tick>, complete: string -> bool): map<string, Ticker>
  {
    map s | s in picks :: SeedOf(c, Base(s, picks[s]), opening(s), complete(s))
  }

  lemma SeedsAre(
    c: Clock, picks: map<string, Opening>, m: map<string, Ticker>,
    opening: string -> seq<Tick>, complete: string -> bool)
    requires SeedsOf(c, picks, m, opening, complete)
    ensures m == SeedTable(c, picks, opening, complete)
  {
    hide SeedOf, Base;
  }

  /** The first `n` trades of a live feed have been processed, whatever symbols they were for. */
  ghost function LiveTapes(feed: seq<(string, Tick)>, n: nat): string -> seq<Tick>
    requires n <= |feed|
  {
    (s: string) => LiveTape(feed, n, s)
  }

  lemma {:induction false} LiveAt(c: Clock, r: Risk, t: Ticker, feed: seq<(string, Tick)>, n: nat, s: string)
    requires n < |feed|
    ensures
      var a, b := LiveTape(feed, n, s), LiveTape(feed, n + 1, s);
      Run(c, r, t, b, |b|) ==
        if feed[n].0 == s then Step(c, r, Run(c, r, t, a, |a|), feed[n].1.(allow := true)) else Run(c, r, t, a, |a|)
  {
    var a, k := LiveTape(feed, n, s), feed[n].1.(allow := true);
    if feed[n].0 == s {
      ReplayLaws.RunSnoc(c, r, t, a, k);
    } else {
      assert LiveTape(feed, n + 1, s) == a;
    }
  }

  /** One more live trade concerns the tape of its own symbol only. */
  lemma {:induction false} LiveOneMore(
    c: Clock, r: Risk, before: map<string, Ticker>, after: map<string, Ticker>, feed: seq<(string, Tick)>, n: nat)
    requires n < |feed| && Played(c, r, before, after, LiveTapes(feed, n))
    ensures feed[n].0 !in after ==> Played(c, r, before, after, LiveTapes(feed, n + 1))
    ensures feed[n].0 in after ==>
      var (sym, k) := feed[n];
      Played(c, r, before, after[sym := Step(c, r, after[sym], k.(allow := true))], LiveTapes(feed, n + 1))
  {
    hide Run, Step, LiveTape;
    forall s | s in before {
      LiveAt(c, r, before[s], feed, n, s);
    }
  }

  lemma LiveTells(
    c: Clock, r: Risk, m: map<string, Ticker>, log: seq<Event>, bell: Option<int>, sym: string, k: Tick)
    requires Keyed(m) && LogTells(m, log, bell)
    ensures sym in m ==> LogTells(m[sym := Step(c, r, m[sym], k)], log + Emits(c, m[sym], k), bell)
  {
    if sym in m {
      TellsAfterStep(c, r, m, log, bell, sym, k);
    }
  }

  lemma LiveStarts(c: Clock, r: Risk, m: map<string, Ticker>, feed: seq<(string, Tick)>)
    ensures Played(c, r, m, m, LiveTapes(feed, 0))
  {
  }

  /** What the live trade says, given the ticker as its own trades before it have left it. */
  ghost function SaidAt(c: Clock, r: Risk, m: map<string, Ticker>, feed: seq<(string, Tick)>, n: nat): seq<Event>
    requires n < |feed|
  {
    var (s, k) := feed[n];
    var a := LiveTape(feed, n, s);
    if s in m then Emits(c, Run(c, r, m[s], a, |a|), k.(allow := true)) else []
  }

  /** What the first `n` live trades say, in order of arrival. */
  ghost function Said(c: Clock, r: Risk, m: map<string, Ticker>, feed: seq<(string, Tick)>, n: nat): seq<Event>
    requires n <= |feed|
  {
    if n == 0 then [] else Said(c, r, m, feed, n - 1) + SaidAt(c, r, m, feed, n - 1)
  }

  /** The log has gone on from `start` by what the first `n` live trades say. */
  ghost predicate SaidSoFar(
    c: Clock, r: Risk, m: map<string, Ticker>, feed: seq<(string, Tick)>, n: nat, start: seq<Event>, log: seq<Event>)
    requires n <= |feed|
  {
    Told(log) == Told(start) + Said(c, r, m, feed, n)
  }

  lemma SaidOneMore(
    c: Clock, r: Risk, before: map<string, Ticker>, after: map<string, Ticker>, feed: seq<(string, Tick)>, n: nat,
    start: seq<Event>, log: seq<Event>)
    requires n < |feed| && Played(c, r, before, after, LiveTapes(feed, n))
    requires SaidSoFar(c, r, before, feed, n, start, log)
    ensures
      var (s, k) := feed[n];
      var more := if s in after then Emits(c, after[s], k.(allow := true)) else [];
      SaidSoFar(c, r, before, feed, n + 1, start, log + more)
  {
    hide Told, Emits, Run, LiveTape;
    var (s, k) := feed[n];
    if s in after {
      assert LiveTapes(feed, n)(s) == LiveTape(feed, n, s);
      StepTrail(c, r, after[s], k.(allow := true));
      ToldMore(log, Emits(c, after[s], k.(allow := true)));
    } else {
      assert log + [] == log;
    }
  }

  /** A live trade: one acting step of its ticker, if it is tracked, and what that step says. */
  ghost predicate LiveTurn(
    c: Clock, r: Risk, before: map<string, Ticker>, after: map<string, Ticker>, log0: seq<Event>, log: seq<Event>,
    sym: string, k: Tick)
  {
    && after == (if sym in before then before[sym := Step(c, r, before[sym], k.(allow := true))] else before)
    && log == log0 + if sym in before then Emits(c, before[sym], k.(allow := true)) else []
  }

  /** One more of them. */
  lemma LiveOn(
    c: Clock, r: Risk, tracked: map<string, Ticker>, before: map<string, Ticker>, after: map<string, Ticker>,
    start: seq<Event>, log0: seq<Event>, log: seq<Event>, feed: seq<(string, Tick)>, n: nat)
    requires n < |feed| && LiveTurn(c, r, before, after, log0, log, feed[n].0, feed[n].1)
    requires Played(c, r, tracked, before, LiveTapes(feed, n)) && SaidSoFar(c, r, tracked, feed, n, start, log0)
    ensures Played(c, r, tracked, after, LiveTapes(feed, n + 1)) && after.Keys == before.Keys
    ensures SaidSoFar(c, r, tracked, feed, n + 1, start, log)
  {
    hide Played, SaidSoFar, Step, Emits, LiveTapes;
    LiveOneMore(c, r, tracked, before, feed, n);
    SaidOneMore(c, r, tracked, before, feed, n, start, log0);
  }

  lemma NothingSaid(c: Clock, r: Risk, m: map<string, Ticker>, feed: seq<(string, Tick)>, log: seq<Event>)
    ensures SaidSoFar(c, r, m, feed, 0, log, log)
  {
  }

  lemma {:induction false} AllSaid(
    c: Clock, r: Risk, m: map<string, Ticker>, feed: seq<(string, Tick)>, start: seq<Event>, log: seq<Event>)
    requires SaidSoFar(c, r, m, feed, |feed|, start, log)
    ensures Told(log) == Told(start) + Said(c, r, m, feed, |feed|)
  {
  }

  /** Catching up says nothing. */
  lemma {:induction false} CaughtUpSaysNothing(
    c: Clock, r: Risk, m: map<string, Ticker>, missed: string -> seq<Tick>, order: seq<string>, n: nat)
    requires n <= |order|
    ensures Replayed(c, r, m, Permitting(missed, false), order, n) == []
  {
    hide Run, Emitted;
    if n > 0 {
      CaughtUpSaysNothing(c, r, m, missed, order, n - 1);
      var s := order[n - 1];
      if s in m {
        ReplayLaws.CatchUpIsPassive(c, r, m[s], Permitted(missed(s), false), |missed(s)|);
      }
    }
  }

  lemma CatchUpSaysNothing(c: Clock, r: Risk, m: map<string, Ticker>, missed: string -> seq<Tick>)
    ensures ReplaySays(c, r, m, Permitting(missed, false)) == []
  {
    hide Replayed;
    CaughtUpSaysNothing(c, r, m, missed, Fanout.SymbolsOf(m), |Fanout.SymbolsOf(m)|);
  }

  /** The tickers after the positions of the listed symbols were left by time. */
  ghost function ClosedTable(c: Clock, m: map<string, Ticker>, wl: seq<string>, time: int): map<string, Ticker> {
    map s | s in m :: if s in wl then TimeExited(c, m[s], time) else m[s]
  }

  lemma ClosedIs(c: Clock, before: map<string, Ticker>, after: map<string, Ticker>, wl: seq<string>, time: int)
    requires ClosedOut(c, before, after, wl, time)
    ensures after == ClosedTable(c, before, wl, time)
  {
    forall s | s in after {
      LeftIs(c, before[s], after[s], time);
    }
    hide LeftByTime, TimeExited;
  }

  /**
   A session joined late: nothing for the trades caught up, the events of the live trades as
   they arrive, the 11AM event, the timed exits by watchlist, the events of the trades after.
   */
  ghost function SessionSays(
    c: Clock, r: Risk, m: map<string, Ticker>, missed: string -> seq<Tick>,
    feed: seq<(string, Tick)>, later: seq<(string, Tick)>, wl: seq<string>): seq<Event>
  {
    var between := PlayedTable(c, r, m, Permitting(missed, false));
    var played := PlayedTable(c, r, between, LiveTapes(feed, |feed|));
    Said(c, r, between, feed, |feed|)
    + [Event(Eleven, "", c.exit)] + CloseEvents(played, wl, |wl|, c.exit)
    + Said(c, r, ClosedTable(c, played, wl, c.exit), later, |later|)
  }

  lemma OneAfterTheOther(start: seq<Event>, a: seq<Event>, b: seq<Event>, d: seq<Event>, e: seq<Event>)
    ensures start + [] + a + b + d + e == start + (a + b + d + e)
  {
  }

  lemma SessionSaysSo(
    c: Clock, r: Risk, m: map<string, Ticker>, between: map<string, Ticker>, played: map<string, Ticker>,
    closed: map<string, Ticker>, missed: string -> seq<Tick>,
    feed: seq<(string, Tick)>, later: seq<(string, Tick)>, wl: seq<string>, start: seq<Event>)
    requires Played(c, r, m, between, Permitting(missed, false))
    requires Played(c, r, between, played, LiveTapes(feed, |feed|))
    requires ClosedOut(c, played, closed, wl, c.exit)
    ensures
      start + ReplaySays(c, r, m, Permitting(missed, false)) + Said(c, r, between, feed, |feed|)
      + [Event(Eleven, "", c.exit)] + CloseEvents(played, wl, |wl|, c.exit) + Said(c, r, closed, later, |later|)
        == start + SessionSays(c, r, m, missed, feed, later, wl)
  {
    hide Said, PlayedTable, ClosedTable, Played, ClosedOut, CloseEvents, ReplaySays;
    CatchUpSaysNothing(c, r, m, missed);
    PlayedIs(c, r, m, between, Permitting(missed, false));
    PlayedIs(c, r, between, played, LiveTapes(feed, |feed|));
    ClosedIs(c, played, closed, wl, c.exit);
    var eleven, closes := [Event(Eleven, "", c.exit)], CloseEvents(played, wl, |wl|, c.exit);
    OneAfterTheOther(start, Said(c, r, between, feed, |feed|), eleven, closes, Said(c, r, closed, later, |later|));
  }

  /** The catch-up and then the live trades are one tape for each ticker. */
  lemma {:induction false} PlayedTwice(
    c: Clock, r: Risk, before: map<string, Ticker>, between: map<string, Ticker>, after: map<string, Ticker>,
    missed: string -> seq<Tick>, feed: seq<(string, Tick)>)
    requires Played(c, r, before, between, Permitting(missed, false))
    requires Played(c, r, between, after, LiveTapes(feed, |feed|))
    ensures Played(c, r, before, after, JoinedLate(missed, feed))
  {
    forall s | s in after
      ensures after[s] == Run(c, r, before[s], JoinedLate(missed, feed)(s), |JoinedLate(missed, feed)(s)|)
    {
      var b := LiveTape(feed, |feed|, s);
      ReplayLaws.RunAppend(c, r, before[s], Permitted(missed(s), false), b, |b|);
    }
  }

  /** The tracked tickers, and no others, are in the store, each with its session ended. */
  ghost predicate SessionDone(
    c: Clock, r: Risk, picks: map<string, Opening>, m: map<string, Ticker>,
    opening: string -> seq<Tick>, complete: string -> bool, tapes: string -> seq<Tick>)
  {
    && m.Keys == picks.Keys
    && forall s | s in m :: m[s] == Ended(c, r, s, picks[s], opening(s), complete(s), tapes(s))
  }

  /** Seeding, playing the tapes and closing by time is what `Ended` says. */
  lemma ClosingEnds(
    c: Clock, r: Risk, picks: map<string, Opening>, tracked: map<string, Ticker>, played: map<string, Ticker>,
    closed: map<string, Ticker>, wl: seq<string>,
    opening: string -> seq<Tick>, complete: string -> bool, tapes: string -> seq<Tick>)
    requires SeedsOf(c, picks, tracked, opening, complete) && Named(picks, wl)
    requires Played(c, r, tracked, played, tapes)
    requires ClosedOut(c, played, closed, wl, c.exit)
    ensures SessionDone(c, r, picks, closed, opening, complete, tapes)
  {
    forall s | s in closed {
      LeftIs(c, played[s], closed[s], c.exit);
    }
    hide LeftByTime, TimeExited;
  }

  /** The same with trades that were still in the feed when the close came. */
  ghost predicate LiveDone(
    c: Clock, r: Risk, picks: map<string, Opening>, m: map<string, Ticker>,
    opening: string -> seq<Tick>, complete: string -> bool, tapes: string -> seq<Tick>, later: string -> seq<Tick>)
  {
    && m.Keys == picks.Keys
    && forall s | s in m :: m[s] == ClosedDuring(c, r, s, picks[s], opening(s), complete(s), tapes(s), later(s))
  }

  lemma {:induction false} LaterTrades(
    c: Clock, r: Risk, picks: map<string, Opening>, closed: map<string, Ticker>, m: map<string, Ticker>,
    opening: string -> seq<Tick>, complete: string -> bool, tapes: string -> seq<Tick>, later: string -> seq<Tick>)
    requires SessionDone(c, r, picks, closed, opening, complete, tapes) && Played(c, r, closed, m, later)
    ensures LiveDone(c, r, picks, m, opening, complete, tapes, later)
  {
    hide Ended, Run;
  }

  ghost predicate AllEndWell(r: Risk, m: map<string, Ticker>) {
    forall s | s in m :: EndsWell(r, m[s])
  }

  /** Whatever is not open ended well. */
  ghost predicate ClosedEndWell(r: Risk, m: map<string, Ticker>) {
    forall s | s in m && !Open(m[s]) :: EndsWell(r, m[s])
  }

  lemma AllMeansClosed(r: Risk, m: map<string, Ticker>)
    requires AllEndWell(r, m)
    ensures ClosedEndWell(r, m)
  {
  }

  lemma ClosedKeys(c: Clock, before: map<string, Ticker>, after: map<string, Ticker>, wl: seq<string>, time: int)
    requires ClosedOut(c, before, after, wl, time)
    ensures after.Keys == before.Keys
  {
  }

  /** The seed's trades fall before the selection time, and each symbol's accepted trades arrive in time order. */
  ghost predicate TapesOk(c: Clock, opening: string -> seq<Tick>, tapes: string -> seq<Tick>) {
    forall s :: ReplayLaws.BeforeSelection(c, opening(s)) && ReplayLaws.InOrder(c, opening(s) + tapes(s))
  }

  lemma {:induction false} DoneEndsWell(
    c: Clock, r: Risk, picks: map<string, Opening>, m: map<string, Ticker>,
    opening: string -> seq<Tick>, complete: string -> bool, tapes: string -> seq<Tick>)
    requires ClockOk(c) && RiskOk(r)
    requires TapesOk(c, opening, tapes) && forall s :: Latched(tapes(s))
    requires SessionDone(c, r, picks, m, opening, complete, tapes)
    ensures AllEndWell(r, m)
  {
    forall s | s in m ensures EndsWell(r, m[s]) {
      EndedEndsWell(c, r, s, picks[s], opening(s), complete(s), tapes(s));
    }
  }

  /** Both parts of each symbol's tape, one after the other. */
  ghost function Joined(a: string -> seq<Tick>, b: string -> seq<Tick>): string -> seq<Tick> {
    (s: string) => a(s) + b(s)
  }

  ghost predicate OnlyLate(c: Clock, tapes: string -> seq<Tick>) {
    forall s, k | k in tapes(s) && Accepts(c, k) :: k.time >= c.cutoff
  }

  lemma JoinedLatches(missed: string -> seq<Tick>, feed: seq<(string, Tick)>, later: seq<(string, Tick)>)
    ensures forall s :: Latched(Joined(JoinedLate(missed, feed), LiveTapes(later, |later|))(s))
  {
    forall s ensures Latched(Joined(JoinedLate(missed, feed), LiveTapes(later, |later|))(s)) {
      JoiningLateLatches(missed, feed, later, s);
    }
  }

  /** The accepted trades of the feed are stamped from the cutoff on. */
  ghost predicate LateOnly(c: Clock, feed: seq<(string, Tick)>) {
    forall p | p in feed && Accepts(c, p.1) :: p.1.time >= c.cutoff
  }

  /** Then so are those of every tape it feeds. */
  lemma LateFeedIsLate(c: Clock, feed: seq<(string, Tick)>)
    ensures LateOnly(c, feed) ==> OnlyLate(c, LiveTapes(feed, |feed|))
  {
    if LateOnly(c, feed) {
      forall s {
        LateFeed(c, feed, |feed|, s);
      }
    }
  }

  /** With the close among the trades, what is not open ended well, and late trades leave nothing open. */
  lemma LiveEndsWell(
    c: Clock, r: Risk, picks: map<string, Opening>, m: map<string, Ticker>,
    opening: string -> seq<Tick>, complete: string -> bool, tapes: string -> seq<Tick>, later: string -> seq<Tick>)
    requires ClockOk(c) && RiskOk(r)
    requires TapesOk(c, opening, Joined(tapes, later)) && forall s :: Latched(Joined(tapes, later)(s))
    requires LiveDone(c, r, picks, m, opening, complete, tapes, later)
    ensures ClosedEndWell(r, m)
    ensures OnlyLate(c, later) ==> AllEndWell(r, m)
  {
    forall s | s in m
      ensures EndsWell(r, m[s]) || Open(m[s])
      ensures OnlyLate(c, later) ==> EndsWell(r, m[s])
    {
      var a, b := tapes(s), later(s);
      assert Joined(tapes, later)(s) == a + b && opening(s) + a + b == opening(s) + (a + b);
      hide EndsWell, ClosedDuring;
      ClosedDuringEndsWell(c, r, s, picks[s], opening(s), complete(s), a, b);
      if OnlyLate(c, later) {
        LateTradesEndWell(c, r, s, picks[s], opening(s), complete(s), a, b);
      }
    }
  }

  // ---- Correction and report ----

  /** The official figures of a ticker whose lookup is usable. */
  function Official(r: OpenRange.Lookup, t: Ticker): Ticker
    requires Usable(r)
  {
    Corrected((t.symbol, r), Some(t)).value
  }

  /** The listed tickers with a usable lookup carry the official figures. */
  ghost predicate CorrectedUpTo(
    before: map<string, Ticker>, after: map<string, Ticker>, sel: seq<string>, official: string -> OpenRange.Lookup)
  {
    && after.Keys == before.Keys
    && forall s | s in after ::
         after[s] == if s in sel && Usable(official(s)) then Official(official(s), before[s]) else before[s]
  }

  /** Correcting in any order of arrival: each candidate by its own bars. */
  lemma CorrectionIs(
    m: map<string, Ticker>, sel: seq<string>, official: string -> OpenRange.Lookup,
    got: seq<(string, OpenRange.Lookup)>)
    requires Fanout.OnceEach(sel, official, got) && forall s | s in sel :: s in m
    ensures CorrectedUpTo(m, Fanout.Fold(m, got, |got|, Fanout.Key, Corrected), sel, official)
  {
    hide Fanout.Fold, Fanout.OnceEach, Range;
    var x := Fanout.Fold(m, got, |got|, Fanout.Key, Corrected);
    forall s
      ensures Fanout.Lookup(x, s) == if s in sel then Fanout.After((s, official(s)), Fanout.Lookup(m, s), Corrected)
                                     else Fanout.Lookup(m, s)
    {
      Fanout.CollectedAt(sel, official, got, m, Corrected, s);
    }
    forall s ensures s in x <==> s in m {
      assert Fanout.Lookup(x, s).Some? <==> s in x;
    }
    forall s | s in x
      ensures x[s] == if s in sel && Usable(official(s)) then Official(official(s), m[s]) else m[s]
    {
      assert Fanout.Lookup(x, s) == Some(x[s]);
    }
  }

  lemma {:induction false} ListedOnce(f: Filters, got: seq<(string, OpenRange.Lookup)>)
    requires Fanout.DistinctKeys(got, Fanout.Key)
    ensures Distinct(Fanout.Listed(got, StillPasses(f)))
  {
    if got != [] {
      var front := got[..|got| - 1];
      ListedOnce(f, front);
      var rows := Fanout.Listed(front, StillPasses(f));
      forall i | 0 <= i < |rows| ensures rows[i] != got[|got| - 1].0 {
        Fanout.ListedMembers(front, StillPasses(f), rows[i]);
      }
    }
  }

  /** The corrected list: exactly the candidates whose own official bars pass, each once. */
  lemma {:induction false} StillPassing(
    f: Filters, sel: seq<string>, official: string -> OpenRange.Lookup, got: seq<(string, OpenRange.Lookup)>,
    out: seq<string>)
    requires Fanout.OnceEach(sel, official, got) && out == SortSymbols(Fanout.Listed(got, StillPasses(f)))
    ensures Distinct(out) && forall s :: s in out <==> s in sel && Chosen(f, official(s))
  {
    var listed := Fanout.Listed(got, StillPasses(f));
    ListedOnce(f, got);
    Fanout.SortKeepsDistinct(listed, out);
    forall s ensures s in out <==> s in sel && Chosen(f, official(s)) {
      Fanout.ListedMembers(got, StillPasses(f), s);
      assert s in out <==> s in listed;
      assert (s, official(s)) in got <==> s in sel;
    }
  }

  /** The row describes the position of a ticker in the table. */
  ghost predicate Describes(m: map<string, Ticker>, end: int, row: Report.Row) {
    && row.symbol in m && Report.HasPosition(m[row.symbol].position)
    && Report.RowTells(m[row.symbol], end, row)
  }

  lemma {:induction false} DescribedIsSound(r: Risk, m: map<string, Ticker>, end: int, row: Report.Row)
    requires Describes(m, end, row) && EndsWell(r, m[row.symbol])
    ensures SoundRow(r, row)
  {
    Report.RowIs(m[row.symbol], end, row);
    RowIsSound(r, m[row.symbol], end);
    hide SoundRow, EndsWell, Report.RowOf, Report.RowTells;
  }

  /** The entry is for a ticker of the table without a position. */
  ghost predicate Explains(m: map<string, Ticker>, f: Filters, x: Report.Missed) {
    && x.symbol in m && !Report.HasPosition(m[x.symbol].position)
    && Report.MissTells(m[x.symbol], f, x)
  }

  lemma {:induction false} MissesExplain(m: map<string, Ticker>, states: seq<Ticker>, f: Filters, x: Report.Missed)
    requires forall t :: t in states <==> t.symbol in m && m[t.symbol] == t
    requires Keyed(m)
    ensures x in Report.Misses(states, |states|, f) <==> Explains(m, f, x)
  {
    Report.MissesAre(states, |states|, f, x);
    forall i | 0 <= i < |states| ensures states[i] in states {
    }
    hide Report.Taken, Report.MissedOf, Report.MissTells, Report.HasPosition;
    if x.symbol in m {
      Report.MissIs(m[x.symbol], f, x);
      assert m[x.symbol] in states;
    }
  }

  lemma {:induction false} RowsDescribe(m: map<string, Ticker>, states: seq<Ticker>, end: int, row: Report.Row)
    requires forall t :: t in states <==> t.symbol in m && m[t.symbol] == t
    requires Keyed(m)
    ensures row in Report.Rows(states, |states|, end) <==> Describes(m, end, row)
  {
    Report.RowsAre(states, |states|, end, row);
    forall i | 0 <= i < |states| ensures states[i] in states {
    }
    hide Report.Taken, Report.RowOf, Report.RowTells, Report.HasPosition;
    if row.symbol in m {
      Report.RowIs(m[row.symbol], end, row);
      assert m[row.symbol] in states;
    }
  }

  /**
   The report holds one row for each position of the table, sound where it is closed, from
   the best to the worst return, and one entry for each other ticker, by symbol; the summary
   is that of the rows, and its figures agree.
   */
  ghost predicate ReportsOn(r: Risk, f: Filters, m: map<string, Ticker>, end: int, rep: Report.Report) {
    && (forall row :: row in rep.trades <==> Describes(m, end, row))
    && Fanout.DistinctKeys(rep.trades, Report.SymbolOf)
    && (forall i, j | 0 <= i < j < |rep.trades| :: rep.trades[i].realPct >= rep.trades[j].realPct)
    && (forall row | row in rep.trades && row.symbol in m && !Open(m[row.symbol]) :: SoundRow(r, row))
    && (forall x :: x in rep.noEntries <==> Explains(m, f, x))
    && Fanout.DistinctKeys(rep.noEntries, Report.MissedSymbol)
    && (forall i, j | 0 <= i < j < |rep.noEntries| ::
          StringLe(rep.noEntries[i].symbol, rep.noEntries[j].symbol))
    && rep.summary == Report.SummaryOf(rep.trades, |rep.noEntries|)
    && Report.Agrees(rep.summary, rep.trades)
    && rep.summary.candidates == |m|
  }

  lemma ReportsCarry(
    r: Risk, f: Filters, m: map<string, Ticker>, end: int, rep: Report.Report, soldOff: seq<SoldOff.Row>)
    requires ReportsOn(r, f, m, end, rep)
    ensures ReportsOn(r, f, m, end, rep.(soldOff := soldOff))
  {
  }
}
