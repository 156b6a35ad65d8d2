/**
 What a whole session leaves behind, as a function of the market data alone: which
 symbols it tracks, with which figures, and how each of them ends.  The schedules of the
 worker pools have no place in it.
 */
module WholeRun {
  import opened Wrappers
  import opened Tape
  import opened Reals
  import opened Sorting
  import opened WorkerPool
  import opened Pipeline
  import opened SessionLaws
  import opened Tables
  import Fanout
  import OpenRange
  import ReplayLaws
  import SoldOff

  /** What the market-data service answers for each symbol. */
  datatype Feeds = Feeds(
    lookup: string -> OpenRange.Lookup, avg: string -> Option<real>,
    opening: string -> seq<Tick>, complete: string -> bool, scan: string -> OpenRange.LowClose)

  datatype Pools = Pools(
    metrics: Gather<OpenRange.Lookup>, history: Gather<History>,
    scan: Gather<OpenRange.LowClose>, today: Gather<SoldOff.Today>)

  ghost predicate PoolsOk(p: Pools) {
    IsPool(p.metrics) && IsPool(p.history) && IsPool(p.scan) && IsPool(p.today)
  }

  // ---- What opening figures say, with the ratios multiplied out ----

  /** Positive figures, a range within the bounds in fractions of the open, and a volume within its bounds. */
  ghost predicate OpensWithin(f: Filters, open: real, high: real, low: real, vol: real) {
    && open > 0.0 && high > 0.0 && low > 0.0
    && high - low >= f.rangeMin * open && high - low <= f.rangeMax * open
    && vol >= f.volMin && vol <= f.volMax
  }

  /** The figures carry the bars, their range, and the history if there is any. */
  ghost predicate FiguresTell(
    o: Opening, open: real, high: real, low: real, vol: real, avg: Option<real>, before: Opening)
  {
    && o.open0930 == open && o.high == high && o.low == low && o.vol == vol
    && o.rangePct * open == high - low
    && (avg.None? ==> o.prevAvg == before.prevAvg && o.todayPct == before.todayPct)
    && (avg.Some? ==>
          && o.prevAvg == avg.value
          && if avg.value > 0.0 then o.todayPct * avg.value == 100.0 * vol else o.todayPct == 0.0)
  }

  lemma RangeWithin(f: Filters, open: real, high: real, low: real, vol: real)
    requires open > 0.0 && high > 0.0 && low > 0.0
    ensures OpensWithin(f, open, high, low, vol) <==> RangeAndVolumePass(f, Range(open, high, low), vol)
    ensures Range(open, high, low) * open == high - low
  {
    QuotientOrder(high - low, open, f.rangeMin);
    QuotientOrder(high - low, open, f.rangeMax);
  }

  lemma HistoryTells(o: Opening, avg: Option<real>)
    requires o.open0930 > 0.0 && o.rangePct == Range(o.open0930, o.high, o.low)
    ensures FiguresTell(WithAvg(o, avg), o.open0930, o.high, o.low, o.vol, avg, o)
  {
    QuotientIs(o.rangePct, o.high - o.low, o.open0930);
    if avg.Some? {
      OpenRange.PercentMeans(o.vol, avg.value, WithAvg(o, avg).todayPct);
      hide OpenRange.PercentOf;
    }
  }

  // ---- The opening table ----

  function CollectedTicker(sym: string, r: OpenRange.Lookup): Ticker
    requires Usable(r)
  {
    NewTicker(sym).(opening := NO_OPENING.(open0930 := r.open, high := r.high, low := r.low, vol := r.vol))
  }

  /** Collected by REST: the watchlist symbols with usable bars. */
  ghost function CollectedTable(wl: seq<string>, lookup: string -> OpenRange.Lookup): map<string, Ticker> {
    map s | s in wl && Usable(lookup(s)) :: CollectedTicker(s, lookup(s))
  }

  /** Streamed: the watchlist symbols with at least one opening bar. */
  ghost function StreamedTable(c: Clock, midnight: int, feed: seq<Agg>, wl: seq<string>): map<string, Ticker> {
    map s | s in wl && KeptBars(c, midnight, feed, |feed|, s) != [] ::
      Streamed(None, s, KeptBars(c, midnight, feed, |feed|, s)).value
  }

  lemma {:induction false} CollectedIs(
    wl: seq<string>, lookup: string -> OpenRange.Lookup, got: seq<(string, OpenRange.Lookup)>)
    requires Fanout.OnceEach(wl, lookup, got)
    ensures Fanout.Fold(map[], got, |got|, Fanout.Key, Collected) == CollectedTable(wl, lookup)
  {
    hide Fanout.Fold, Fanout.OnceEach;
    var x, y := Fanout.Fold(map[], got, |got|, Fanout.Key, Collected), CollectedTable(wl, lookup);
    forall s: string ensures Fanout.Lookup(x, s) == Fanout.Lookup(y, s) {
      Fanout.CollectedAt(wl, lookup, got, map[], Collected, s);
    }
    Fanout.SameLookups(x, y);
  }

  /** Exactly the watchlist symbols whose lookup found positive figures, each with its own and nothing else. */
  lemma CollectedTableIs(wl: seq<string>, lookup: string -> OpenRange.Lookup, s: string)
    ensures var m, r := CollectedTable(wl, lookup), lookup(s);
      && (s in m <==> s in wl && r.Found? && r.open > 0.0 && r.high > 0.0 && r.low > 0.0)
      && (s in m ==>
            && m[s].symbol == s && m[s].status == Watching && m[s].opening.open0930 == r.open
            && m[s].opening == Opening(r.open, false, r.high, r.low, r.vol, 0.0, 0.0, 0.0)
            && !m[s].position.held && !m[s].position.exited && !m[s].cross.saw && m[s].market.cumV == 0.0)
  {
  }

  /** A bar of the stream that opens the session of `s`: 09:30 is 34200 seconds after midnight, 09:35 34500. */
  ghost predicate OpensSession(c: Clock, midnight: int, k: Agg, s: string) {
    && k.symbol == s && k.start >= c.open && k.start < c.sel
    && k.start - midnight >= 34200000 && k.start - midnight < 34500000
  }

  ghost function StreamedVolume(c: Clock, midnight: int, feed: seq<Agg>, n: nat, s: string): real
    requires n <= |feed|
  {
    if n == 0 then 0.0
    else
      StreamedVolume(c, midnight, feed, n - 1, s)
      + if OpensSession(c, midnight, feed[n - 1], s) then feed[n - 1].bar.volume else 0.0
  }

  /** The first of the symbol's opening bars that carries an open. */
  ghost predicate FirstOpening(c: Clock, midnight: int, feed: seq<Agg>, n: nat, s: string, i: nat) {
    && i < n <= |feed| && OpensSession(c, midnight, feed[i], s) && feed[i].bar.open != 0.0
    && forall j | 0 <= j < i && OpensSession(c, midnight, feed[j], s) :: feed[j].bar.open == 0.0
  }

  /** The opening figures hold the volume of all opening bars, and the first open, marked if it came late. */
  ghost predicate StreamTells(c: Clock, midnight: int, feed: seq<Agg>, n: nat, s: string, o: Opening)
    requires n <= |feed|
  {
    && o.vol == StreamedVolume(c, midnight, feed, n, s)
    && (o.open0930 == 0.0 ==>
          forall j | 0 <= j < n && OpensSession(c, midnight, feed[j], s) :: feed[j].bar.open == 0.0)
    && (o.open0930 != 0.0 ==>
          exists i: nat ::
            && FirstOpening(c, midnight, feed, n, s, i) && o.open0930 == feed[i].bar.open
            && (o.estimated <==> feed[i].start - midnight >= 34260000))
  }

  lemma {:induction false} StreamFoldTells(c: Clock, midnight: int, feed: seq<Agg>, n: nat, s: string)
    requires n <= |feed|
    ensures var kept := KeptBars(c, midnight, feed, n, s);
      && StreamTells(c, midnight, feed, n, s, OpenRange.StreamFold(NO_OPENING, kept, |kept|))
      && (kept == [] <==> forall j | 0 <= j < n :: !OpensSession(c, midnight, feed[j], s))
  {
    if n > 0 {
      var k, before := feed[n - 1], KeptBars(c, midnight, feed, n - 1, s);
      StreamFoldTells(c, midnight, feed, n - 1, s);
      hide OpensSession, InOpening, StreamTells, OpenRange.StreamStep;
      OpenRange.StreamSnoc(NO_OPENING, before, (MinuteOf(midnight, k.start), k.bar));
      assert before + [] == before;
    }
  }

  /** Exactly the watchlist symbols with an opening bar, each with the figures of its own bars. */
  lemma StreamedTableIs(c: Clock, midnight: int, feed: seq<Agg>, wl: seq<string>, s: string)
    ensures var m := StreamedTable(c, midnight, feed, wl);
      && (s in m <==> s in wl && exists j | 0 <= j < |feed| :: OpensSession(c, midnight, feed[j], s))
      && (s in m ==>
            && m[s].symbol == s && !m[s].position.held && !m[s].cross.saw && m[s].market.cumV == 0.0
            && StreamTells(c, midnight, feed, |feed|, s, m[s].opening))
  {
    StreamFoldTells(c, midnight, feed, |feed|, s);
    hide OpensSession, KeptBars, StreamTells, OpenRange.StreamFold;
  }

  /** The table before selection. */
  ghost function OpeningTable(
    c: Clock, midnight: int, stream: Option<seq<Agg>>, wl: seq<string>, d: Feeds): map<string, Ticker>
  {
    if stream.Some? then StreamedTable(c, midnight, stream.value, wl) else CollectedTable(wl, d.lookup)
  }

  /** The table holds, for each watchlist symbol, what the first `n` streamed bars make of it. */
  ghost predicate StreamedUpTo(
    c: Clock, midnight: int, feed: seq<Agg>, n: nat, wl: seq<string>,
    before: map<string, Ticker>, after: map<string, Ticker>)
  {
    n <= |feed|
    && forall s :: Fanout.Lookup(after, s) ==
         if s != "" && s in wl then Streamed(Fanout.Lookup(before, s), s, KeptBars(c, midnight, feed, n, s))
         else Fanout.Lookup(before, s)
  }

  lemma StreamedOneMore(
    c: Clock, midnight: int, feed: seq<Agg>, n: nat, wl: seq<string>,
    before: map<string, Ticker>, after: map<string, Ticker>)
    requires n < |feed| && StreamedUpTo(c, midnight, feed, n, wl, before, after)
    ensures
      var k := feed[n];
      var t, minute := OrNew(Fanout.Lookup(after, k.symbol), k.symbol), MinuteOf(midnight, k.start);
      if k.symbol != "" && k.symbol in wl && InOpening(c, midnight, k.start)
      then StreamedUpTo(c, midnight, feed, n + 1, wl, before,
                        after[k.symbol := t.(opening := OpenRange.StreamStep(t.opening, minute, k.bar))])
      else StreamedUpTo(c, midnight, feed, n + 1, wl, before, after)
  {
    hide Streamed, OpenRange.StreamStep;
    var k := feed[n];
    var kept := KeptBars(c, midnight, feed, n, k.symbol);
    if InOpening(c, midnight, k.start) {
      StreamedMore(Fanout.Lookup(before, k.symbol), k.symbol, kept, (MinuteOf(midnight, k.start), k.bar));
    } else {
      assert KeptBars(c, midnight, feed, n + 1, k.symbol) == kept;
    }
    assert forall s | s != k.symbol :: KeptBars(c, midnight, feed, n + 1, s) == KeptBars(c, midnight, feed, n, s);
  }

  /**
   A symbol whose streamed bars all carry a positive open enters the table exactly as REST
   over the same bars would have it, but for the mark that its first bar came late.
   */
  lemma {:induction false} StreamMeetsRest(
    c: Clock, midnight: int, feed: seq<Agg>, wl: seq<string>, lookup: string -> OpenRange.Lookup, s: string)
    requires
      var kept := KeptBars(c, midnight, feed, |feed|, s);
      && s in wl && kept != [] && (forall i | 0 <= i < |kept| :: OpenRange.Opens(kept[i].1))
      && lookup(s) == OpenRange.RestFold(OpenRange.BarsOf(kept), |kept|) && Usable(lookup(s))
    ensures
      var late := KeptBars(c, midnight, feed, |feed|, s)[0].0 != 570;
      var t := CollectedTicker(s, lookup(s));
      Fanout.Lookup(StreamedTable(c, midnight, feed, wl), s) == Some(t.(opening := t.opening.(estimated := late)))
  {
    var kept := KeptBars(c, midnight, feed, |feed|, s);
    OpenRange.StreamAgreesWithRest(kept, |kept|);
  }

  // ---- A replay ----

  /** The symbols whose own bars pass, each with its own figures. */
  ghost function ReplayPicks(f: Filters, wl: seq<string>, d: Feeds): map<string, Opening> {
    map s | s in wl && Chosen(f, d.lookup(s)) :: OpeningOf(d.lookup(s), d.avg(s))
  }

  /** Exactly the watchlist symbols whose own bars open within the filters, each with its own figures. */
  lemma ReplayPicksAre(f: Filters, wl: seq<string>, d: Feeds, s: string)
    ensures var picks, r := ReplayPicks(f, wl, d), d.lookup(s);
      && (s in picks <==> s in wl && r.Found? && OpensWithin(f, r.open, r.high, r.low, r.vol))
      && (s in picks ==>
            !picks[s].estimated && FiguresTell(picks[s], r.open, r.high, r.low, r.vol, d.avg(s), NO_OPENING))
  {
    var r := d.lookup(s);
    if Usable(r) {
      RangeWithin(f, r.open, r.high, r.low, r.vol);
      HistoryTells(OpeningOf(r, None), d.avg(s));
      hide Range, WithAvg;
      assert OpeningOf(r, d.avg(s)) == WithAvg(OpeningOf(r, None), d.avg(s));
    }
  }

  ghost function EndedTable(
    c: Clock, r: Risk, picks: map<string, Opening>, d: Feeds, tapes: string -> seq<Tick>): map<string, Ticker>
  {
    map s | s in picks :: Ended(c, r, s, picks[s], d.opening(s), d.complete(s), tapes(s))
  }

  /** The store after an uncancelled replay: every pick at its end, or the collected table if there is none. */
  ghost function ReplayTable(
    c: Clock, r: Risk, f: Filters, wl: seq<string>, d: Feeds, tapes: string -> seq<Tick>): map<string, Ticker>
  {
    var picks := ReplayPicks(f, wl, d);
    if picks == map[] then CollectedTable(wl, d.lookup) else EndedTable(c, r, picks, d, tapes)
  }

  /** A replayed ticker holds the totals of its own trades, and was left by time at the last of them. */
  lemma ReplayTableTells(
    c: Clock, r: Risk, f: Filters, wl: seq<string>, d: Feeds, tapes: string -> seq<Tick>, s: string)
    requires ClockOk(c) && RiskOk(r) && ReplayLaws.BeforeSelection(c, d.opening(s)) && s in ReplayPicks(f, wl, d)
    ensures
      var m, tape := ReplayTable(c, r, f, wl, d, tapes), d.opening(s) + tapes(s);
      && s in m && m[s].symbol == s && m[s].opening == ReplayPicks(f, wl, d)[s]
      && ReplayLaws.Totals(c, m[s].market, tape, |tape|)
      && LeftInTime(c, m[s].position, tape) && StatusTells(m[s])
  {
    var o := ReplayPicks(f, wl, d)[s];
    hide ReplayPicks, Run, SeedOf;
    assert s in ReplayPicks(f, wl, d);
    SessionTells(c, r, s, o, d.opening(s), d.complete(s), tapes(s), []);
    assert d.opening(s) + tapes(s) + [] == d.opening(s) + tapes(s);
  }

  /**
   Selecting from the collected table and adding history, whatever order the pools
   deliver in: exactly the symbols whose own bars pass are tracked, each with its own figures.
   */
  lemma TrackedExactly(f: Filters, wl: seq<string>, d: Feeds, marked: map<string, Ticker>, sel: seq<string>)
    requires MarkedUpTo(f, CollectedTable(wl, d.lookup), marked, wl)
    requires forall s :: s in sel <==> s in wl && IsCandidate(f, CollectedTable(wl, d.lookup), s)
    ensures PicksFrom(marked, sel, d.avg) == ReplayPicks(f, wl, d)
  {
    hide Range, OpenRange.PercentOf;
    var x, y := PicksFrom(marked, sel, d.avg), ReplayPicks(f, wl, d);
    forall s ensures s in x <==> s in y {
      assert s in sel <==> s in wl && Chosen(f, d.lookup(s));
    }
    forall s | s in x ensures x[s] == y[s] {
    }
  }

  lemma NothingMarked(
    f: Filters, table: map<string, Ticker>, marked: map<string, Ticker>, wl: seq<string>, sel: seq<string>)
    requires MarkedUpTo(f, table, marked, wl) && sel == []
    requires forall s :: s in sel <==> s in wl && IsCandidate(f, table, s)
    ensures marked == table
  {
    forall s | s in marked ensures marked[s] == table[s] {
      assert s !in sel;
    }
  }

  lemma PicksAnyOf(m: map<string, Ticker>, sel: seq<string>, avg: string -> Option<real>)
    requires forall s | s in sel :: s in m
    ensures PicksFrom(m, sel, avg) == map[] <==> sel == []
  {
    if sel != [] {
      assert sel[0] in sel;
      assert sel[0] in PicksFrom(m, sel, avg);
    }
  }

  lemma {:induction false} DoneIs(
    c: Clock, r: Risk, picks: map<string, Opening>, d: Feeds, m: map<string, Ticker>, tapes: string -> seq<Tick>)
    requires SessionDone(c, r, picks, m, d.opening, d.complete, tapes)
    ensures m == EndedTable(c, r, picks, d, tapes)
  {
    hide Ended;
  }

  lemma LiveDoneIs(
    c: Clock, r: Risk, picks: map<string, Opening>, d: Feeds, m: map<string, Ticker>,
    tapes: string -> seq<Tick>, later: string -> seq<Tick>)
    requires LiveDone(c, r, picks, m, d.opening, d.complete, tapes, later)
    ensures m == LiveTable(c, r, picks, d, tapes, later)
  {
    hide ClosedDuring;
  }

  /** What a replay logs but messages: nothing if nothing was tracked, otherwise exactly the day's events. */
  ghost function ReplayLog(
    c: Clock, r: Risk, f: Filters, wl: seq<string>, d: Feeds, tapes: string -> seq<Tick>): seq<Event>
  {
    var picks := ReplayPicks(f, wl, d);
    if picks == map[] then [] else DaySays(c, r, SeedTable(c, picks, d.opening, d.complete), tapes, wl)
  }

  /** From the phases of a run to its table. */
  lemma RunIsExact(
    c: Clock, r: Risk, f: Filters, wl: seq<string>, d: Feeds, marked: map<string, Ticker>, sel: seq<string>,
    m: map<string, Ticker>, tapes: string -> seq<Tick>)
    requires MarkedUpTo(f, CollectedTable(wl, d.lookup), marked, wl)
    requires forall s :: s in sel <==> s in wl && IsCandidate(f, CollectedTable(wl, d.lookup), s)
    requires sel == [] ==> m == marked
    requires sel != [] ==> SessionDone(c, r, PicksFrom(marked, sel, d.avg), m, d.opening, d.complete, tapes)
    ensures m == ReplayTable(c, r, f, wl, d, tapes) && (sel == [] <==> ReplayPicks(f, wl, d) == map[])
    ensures PicksFrom(marked, sel, d.avg) == ReplayPicks(f, wl, d)
  {
    hide ReplayPicks, PicksFrom, CollectedTable, MarkedUpTo, SessionDone, EndedTable;
    TrackedExactly(f, wl, d, marked, sel);
    MarkedHas(f, CollectedTable(wl, d.lookup), marked, wl, sel);
    PicksAnyOf(marked, sel, d.avg);
    if sel == [] {
      NothingMarked(f, CollectedTable(wl, d.lookup), marked, wl, sel);
    } else {
      DoneIs(c, r, ReplayPicks(f, wl, d), d, m, tapes);
    }
  }

  /** A replay depends on its pools only through folds that every delivery leaves the same. */
  lemma RunIsScheduleIndependent(
    wl: seq<string>, lookup: string -> OpenRange.Lookup,
    metrics: seq<(string, OpenRange.Lookup)>, metrics': seq<(string, OpenRange.Lookup)>,
    base: map<string, Ticker>, sel: seq<string>, ask: string -> History,
    history: seq<(string, History)>, history': seq<(string, History)>)
    requires Distinct(wl) && Delivers(wl, lookup, metrics) && Delivers(wl, lookup, metrics')
    requires Distinct(sel) && Delivers(sel, ask, history) && Delivers(sel, ask, history')
    ensures Fanout.Fold(map[], metrics, |metrics|, Fanout.Key, Collected)
         == Fanout.Fold(map[], metrics', |metrics'|, Fanout.Key, Collected)
    ensures Fanout.Fold(base, history, |history|, Fanout.Key, WithHistory)
         == Fanout.Fold(base, history', |history'|, Fanout.Key, WithHistory)
  {
    DeliveriesPermute(wl, lookup, metrics, metrics');
    DeliveriesPermute(sel, ask, history, history');
    Fanout.FoldOrderIndependent(map[], metrics, metrics', Fanout.Key, Collected);
    Fanout.FoldOrderIndependent(base, history, history', Fanout.Key, WithHistory);
  }

  /** Correcting the candidates: table and sorted list, for every schedule. */
  lemma CorrectionIsScheduleIndependent(
    cfg: Config<OpenRange.Lookup>, acts: seq<Action<OpenRange.Lookup>>, m: map<string, Ticker>, f: Filters)
    requires Completed(cfg, acts) && Distinct(cfg.syms)
    ensures var got, sequential := Got(cfg, acts), Sequential(cfg);
      && Fanout.Fold(m, got, |got|, Fanout.Key, Corrected)
         == Fanout.Fold(m, sequential, |sequential|, Fanout.Key, Corrected)
      && SortSymbols(Fanout.Listed(got, StillPasses(f))) == SortSymbols(Fanout.Listed(sequential, StillPasses(f)))
  {
    StringOrder();
    StringNoTies(Fanout.Listed(Sequential(cfg), StillPasses(f)));
    ScheduleIndependent(cfg, acts, m, Corrected, StillPasses(f), StringLe);
  }

  // ---- A session joined while it runs ----

  /** Candidates of the opening table whose official bars still pass, with the official figures. */
  ghost function LivePicks(
    f: Filters, table: map<string, Ticker>, wl: seq<string>, official: string -> OpenRange.Lookup,
    avg: string -> Option<real>): map<string, Opening>
  {
    map s | s in wl && IsCandidate(f, table, s) && Chosen(f, official(s)) ::
      WithAvg(Official(official(s), table[s]).opening, avg(s))
  }

  /** The opening table with its candidates marked and, where their lookup is usable, corrected. */
  ghost function CheckedTable(
    f: Filters, table: map<string, Ticker>, wl: seq<string>, official: string -> OpenRange.Lookup): map<string, Ticker>
  {
    map s | s in table ::
      if s in wl && IsCandidate(f, table, s) then Checked(Marked(table[s]), official(s)) else table[s]
  }

  ghost function Checked(t: Ticker, r: OpenRange.Lookup): Ticker {
    if Usable(r) then Official(r, t) else t
  }

  /** Exactly the watchlist symbols whose streamed and whose official bars both open within the filters. */
  lemma LivePicksAre(
    f: Filters, table: map<string, Ticker>, wl: seq<string>, official: string -> OpenRange.Lookup,
    avg: string -> Option<real>, s: string)
    ensures var picks, r := LivePicks(f, table, wl, official, avg), official(s);
      && (s in picks <==>
            && s in wl && s in table && r.Found?
            && (var o := table[s].opening; OpensWithin(f, o.open0930, o.high, o.low, o.vol))
            && OpensWithin(f, r.open, r.high, r.low, r.vol))
      && (s in picks ==>
            && !picks[s].estimated
            && FiguresTell(picks[s], r.open, r.high, r.low, r.vol, avg(s), table[s].opening))
  {
    var r := official(s);
    if s in table {
      var o := table[s].opening;
      if o.open0930 > 0.0 && o.high > 0.0 && o.low > 0.0 {
        RangeWithin(f, o.open0930, o.high, o.low, o.vol);
      }
      if Usable(r) {
        RangeWithin(f, r.open, r.high, r.low, r.vol);
        HistoryTells(Official(r, table[s]).opening, avg(s));
      }
      hide Range, WithAvg;
    }
  }

  ghost function LiveTable(
    c: Clock, r: Risk, picks: map<string, Opening>, d: Feeds,
    tapes: string -> seq<Tick>, later: string -> seq<Tick>): map<string, Ticker>
  {
    map s | s in picks :: ClosedDuring(c, r, s, picks[s], d.opening(s), d.complete(s), tapes(s), later(s))
  }

  lemma MarkedTells(f: Filters, t: Ticker)
    ensures var o := t.opening;
      && (Selectable(f, o) <==> OpensWithin(f, o.open0930, o.high, o.low, o.vol))
      && (Selectable(f, o) ==>
            var u := Marked(t);
            && u == t.(status := Selected, opening := u.opening) && u.opening.estimated == o.estimated
            && FiguresTell(u.opening, o.open0930, o.high, o.low, o.vol, None, o))
  {
    var o := t.opening;
    if o.open0930 > 0.0 && o.high > 0.0 && o.low > 0.0 {
      RangeWithin(f, o.open0930, o.high, o.low, o.vol);
      hide Range, RangeAndVolumePass, OpensWithin;
    }
  }

  /** Which tickers the check touches, and what it leaves in them. */
  lemma CheckedTableIs(
    f: Filters, table: map<string, Ticker>, wl: seq<string>, official: string -> OpenRange.Lookup, s: string)
    requires s in table
    ensures var t, r := table[s], official(s);
      var o := t.opening;
      && s in CheckedTable(f, table, wl, official)
      && var u := CheckedTable(f, table, wl, official)[s];
      if s !in wl || !OpensWithin(f, o.open0930, o.high, o.low, o.vol) then u == t
      else
        && u == t.(status := Selected, opening := u.opening)
        && if r.Found? && r.open > 0.0 && r.high > 0.0 && r.low > 0.0
           then !u.opening.estimated && FiguresTell(u.opening, r.open, r.high, r.low, r.vol, None, o)
           else u.opening.estimated == o.estimated
                && FiguresTell(u.opening, o.open0930, o.high, o.low, o.vol, None, o)
  {
    MarkedTells(f, table[s]);
    if Selectable(f, table[s].opening) && Usable(official(s)) {
    }
    hide OpensWithin, Selectable, Marked, Official;
  }

  /** What a session joined late logs but messages. */
  ghost function LiveLog(
    c: Clock, r: Risk, picks: map<string, Opening>, d: Feeds, missed: string -> seq<Tick>,
    feed: seq<(string, Tick)>, later: seq<(string, Tick)>, wl: seq<string>): seq<Event>
  {
    if picks == map[] then []
    else SessionSays(c, r, SeedTable(c, picks, d.opening, d.complete), missed, feed, later, wl)
  }

  /** The same for a session joined late, whose later trades come after the close. */
  lemma LiveTableTells(
    c: Clock, r: Risk, picks: map<string, Opening>, d: Feeds,
    tapes: string -> seq<Tick>, later: string -> seq<Tick>, s: string)
    requires ClockOk(c) && RiskOk(r) && ReplayLaws.BeforeSelection(c, d.opening(s)) && s in picks
    ensures
      var m, tape := LiveTable(c, r, picks, d, tapes, later), d.opening(s) + tapes(s);
      && s in m && m[s].symbol == s && m[s].opening == picks[s]
      && ReplayLaws.Totals(c, m[s].market, tape + later(s), |tape + later(s)|)
      && LeftInTime(c, m[s].position, tape) && StatusTells(m[s])
  {
    hide ClosedDuring;
    SessionTells(c, r, s, picks[s], d.opening(s), d.complete(s), tapes(s), later(s));
  }

  /** Marking and correcting the opening table leaves those picks. */
  lemma CorrectedExactly(
    f: Filters, table: map<string, Ticker>, wl: seq<string>, official: string -> OpenRange.Lookup,
    avg: string -> Option<real>, marked: map<string, Ticker>, candidates: seq<string>,
    m: map<string, Ticker>, sel: seq<string>)
    requires MarkedUpTo(f, table, marked, wl) && CorrectedUpTo(marked, m, candidates, official)
    requires forall s :: s in candidates <==> s in wl && IsCandidate(f, table, s)
    requires forall s :: s in sel <==> s in candidates && Chosen(f, official(s))
    ensures PicksFrom(m, sel, avg) == LivePicks(f, table, wl, official, avg) && forall s | s in sel :: s in m
  {
    hide Range, OpenRange.PercentOf;
    var x, y := PicksFrom(m, sel, avg), LivePicks(f, table, wl, official, avg);
    forall s ensures s in x <==> s in y {
      assert s in candidates <==> s in wl && IsCandidate(f, table, s);
    }
    forall s | s in x ensures x[s] == y[s] {
      assert s in candidates;
    }
  }

  /** It touches no trade data. */
  lemma CorrectedStaysFresh(
    f: Filters, table: map<string, Ticker>, wl: seq<string>, official: string -> OpenRange.Lookup,
    marked: map<string, Ticker>, candidates: seq<string>, m: map<string, Ticker>)
    requires OnlyFresh(table, wl) && MarkedUpTo(f, table, marked, wl)
    requires CorrectedUpTo(marked, m, candidates, official)
    ensures OnlyFresh(m, wl) && Keyed(m)
  {
    hide Range;
    forall s | s in m ensures s in wl && m[s].symbol == s && Fresh(m[s]) {
      assert s in table && s in marked;
    }
  }

  /** And the table is exactly the checked one. */
  lemma CheckedIs(
    f: Filters, table: map<string, Ticker>, wl: seq<string>, official: string -> OpenRange.Lookup,
    marked: map<string, Ticker>, candidates: seq<string>, m: map<string, Ticker>)
    requires MarkedUpTo(f, table, marked, wl) && CorrectedUpTo(marked, m, candidates, official)
    requires forall s :: s in candidates <==> s in wl && IsCandidate(f, table, s)
    ensures m == CheckedTable(f, table, wl, official)
  {
    hide Official, Marked;
    var x := CheckedTable(f, table, wl, official);
    forall s | s in m ensures m[s] == x[s] {
      assert s in candidates <==> s in wl && IsCandidate(f, table, s);
    }
  }

  // ---- The sold-off list ----

  /** Nothing for a scan that ends within a minute of the open, otherwise exactly the rows that qualify. */
  ghost predicate SoldOffIs(
    f: Filters, open: int, scanEnd: int, metrics: map<string, SoldOff.Metric>, d: Feeds, out: seq<SoldOff.Row>)
  {
    if scanEnd < open + 60000 then out == [] else SoldOff.ScanOutput(f, metrics, d.scan, d.avg, out)
  }

  /** The earlier of two instants. */
  function Sooner(a: int, b: int): (r: int)
    ensures r <= a && r <= b && (r == a || r == b)
  {
    if a < b then a else b
  }
}
