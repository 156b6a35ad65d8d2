/**
 The engine's trade handling, in the source's form: each method reads copies from
 the store, applies updates under its mutex and returns early where the source does.
 Each is proved to perform the steps of module `Tape`.
 */
module Engine {
  import opened Wrappers
  import opened Tape
  import opened Sorting
  import opened Pipeline
  import opened SessionLaws
  import opened EventLog
  import opened Tables
  import Fanout
  import OpenRange
  import ReplayLaws
  import Report
  import opened WorkerPool
  import opened WholeRun
  import SoldOff
  import Store

  class Engine {
    const risk: Risk
    const st: Store.Store

    constructor (risk: Risk, st: Store.Store)
      ensures this.risk == risk && this.st == st
    {
      this.risk, this.st := risk, st;
    }

    method OpenPosition(time: int, sym: string, entry: real)
      requires st.Valid() && sym in st.tickers
      modifies st`tickers, st`events, st`appended
      ensures st.Valid()
      ensures st.tickers == old(st.tickers)[sym := Opened(st.clock, risk, old(st.tickers)[sym], time, entry)]
      ensures st.appended == old(st.appended) + [Event(Buy, sym, time)]
    {
      ghost var t0 := st.tickers[sym];
      var tp := entry * (1.0 + risk.takeProfit);
      var sl := entry * (1.0 - risk.stopLoss);
      var minutes := Minutes(st.clock, time);
      st.UpsertTicker(sym, (t: Ticker) =>
        t.(position := t.position.(held := true, entryPrice := entry, entryTime := Some(time),
                                   entryMinutes := minutes, target := tp, stop := sl),
           status := Long,
           excursion := Excursion(entry, Some(time), entry, Some(time))));
      assert st.tickers[sym] == Opened(st.clock, risk, t0, time, entry);
      hide Store.Logged;
      st.AddEvent(Event(Buy, sym, time));
    }

    method ClosePosition(time: int, sym: string, reason: Label, price: real)
      requires st.Valid() && sym in st.tickers
      modifies st`tickers, st`events, st`appended
      ensures st.Valid()
      ensures st.tickers == old(st.tickers)[sym := Closed(st.clock, old(st.tickers)[sym], reason, time, price)]
      ensures st.appended == old(st.appended) + [Event(reason, sym, time)]
    {
      var minutes := Minutes(st.clock, time);
      st.UpsertTicker(sym, (t: Ticker) =>
        t.(position := t.position.(exited := true, reason := reason, exitTime := Some(time),
                                   exitPrice := price, exitMinutes := minutes),
           status := reason));
      hide Store.Logged;
      st.AddEvent(Event(reason, sym, time));
    }

    /** VWAP, last price and excursions, always, even after the exit. */
    method UpdateMarket(c: Clock, sym: string, k: Tick)
      requires sym in st.tickers
      modifies st`tickers
      ensures var t := old(st.tickers)[sym];
        st.tickers == old(st.tickers)[sym := Recorded(c, t, k).(cross := t.cross)]
    {
      var time, price, size := k.time, k.price, k.size;
      ghost var t0 := st.tickers[sym];
      var minutes := Minutes(c, time);
      st.UpsertTicker(sym, (t: Ticker) =>
        var m, x := t.market, t.excursion;
        var pv, v := m.cumPV + price * size, m.cumV + size;
        var since := t.position.held && t.position.entryTime.Some? && t.position.entryTime.value <= time;
        var up := since && (x.maxPrice == 0.0 || price > x.maxPrice);
        var down := since && (x.minPrice == 0.0 || price < x.minPrice);
        t.(market := Market(pv, v, if v > 0.0 then pv / v else m.vwap, price, Some(time), m.lastPrice, m.vwap, minutes),
           excursion := Excursion(
             if up then price else x.maxPrice, if up then Some(time) else x.maxTime,
             if down then price else x.minPrice, if down then Some(time) else x.minTime)));
      assert st.tickers[sym].market == Advance(c, t0.market, k);
    }

    /** Records the first cross-up; `ts` is the copy read after the market update. */
    method DetectCross(c: Clock, sym: string, k: Tick, ts: Ticker) returns (sawCross: bool)
      requires sym in st.tickers && ts == st.tickers[sym]
      modifies st`tickers
      ensures
        var crossed := !ts.position.held && !ts.position.exited && !ts.cross.saw && CrossNow(c, ts.market, k);
        && st.tickers ==
             old(st.tickers)[sym := if crossed then ts.(cross := Cross(true, Some(k.time), k.price)) else ts]
        && sawCross == (crossed || ts.cross.saw)
    {
      var time, price := k.time, k.price;
      var crossNow := ts.market.prevPrice > 0.0 && ts.market.prevVwap > 0.0
                      && ts.market.prevPrice < ts.market.prevVwap && price >= ts.market.vwap;
      sawCross := ts.cross.saw;
      if !ts.position.held && !ts.position.exited && !sawCross && crossNow
         && time >= c.open + MINUTE && time < c.cutoff {
        sawCross := true;
        st.UpsertTicker(sym, (t: Ticker) =>
          if !t.cross.saw then t.(cross := Cross(true, Some(time), price)) else t);
      }
    }

    /** Entry and exit rules for a recorded trade; `ts` is the copy read before the cross was stored. */
    method Act(c: Clock, sym: string, k: Tick, ts: Ticker, sawCross: bool)
      requires st.Valid() && sym in st.tickers && st.clock.open == c.open
      requires st.tickers[sym] == ts.(cross := st.tickers[sym].cross)
      requires sawCross == st.tickers[sym].cross.saw && ts.symbol == sym
      modifies st`tickers, st`events, st`appended
      ensures st.Valid()
      ensures st.tickers == old(st.tickers)[sym := Acted(c, risk, old(st.tickers)[sym], k)]
      ensures st.appended == old(st.appended) + Signals(c, old(st.tickers)[sym], k)
    {
      var time, price, f := k.time, k.price, k.filters;
      var minutes := Minutes(c, time);
      ghost var u := st.tickers[sym];
      if k.allow && !ts.position.held && !ts.position.exited {
        if time < c.sel {
          return;
        }
        if time >= c.cutoff {
          return;
        }
        if minutes < f.entryMin as real || minutes > f.entryMax as real + 0.999 {
          return;
        }
        if ts.opening.rangePct < f.rangeMin || ts.opening.rangePct > f.rangeMax {
          return;
        }
        if ts.opening.vol < f.volMin || ts.opening.vol > f.volMax {
          return;
        }
        if ts.opening.todayPct < f.todayMin || ts.opening.todayPct > f.todayMax {
          return;
        }
        if price < f.priceMin || price > f.priceMax {
          return;
        }
        if !(ts.market.vwap > 0.0 && price >= ts.market.vwap) {
          return;
        }
        if sawCross {
          OpenPosition(time, sym, price);
          assert Opened(st.clock, risk, u, time, price) == Opened(c, risk, u, time, price);
          return;
        }
      }

      if k.allow && ts.position.held && !ts.position.exited {
        if price >= ts.position.target && ts.position.target > 0.0 {
          ClosePosition(time, sym, Profit, price);
          return;
        }
        if price <= ts.position.stop && ts.position.stop > 0.0 {
          ClosePosition(time, sym, Stop, price);
          return;
        }
      }
    }

    /** `st.clock` was set from the same session instants before any trade is fed. */
    method ProcessTrade(c: Clock, sym: string, time: int, price: real, size: real, allow: bool)
      requires st.Valid() && Keyed(st.tickers) && st.clock.open == c.open
      modifies st`tickers, st`events, st`appended
      ensures st.Valid() && Keyed(st.tickers)
      ensures sym == "" || sym !in old(st.tickers) ==>
        st.tickers == old(st.tickers) && st.appended == old(st.appended)
      ensures sym != "" && sym in old(st.tickers) ==>
        var t, k := old(st.tickers)[sym], Tick(time, price, size, st.filters, allow);
        && st.tickers == old(st.tickers)[sym := Step(c, risk, t, k)]
        && st.appended == old(st.appended) + Emits(c, t, k)
      ensures sym != "" && sym in old(st.tickers) ==>
        ReplayLaws.TakenIn(c, old(st.tickers)[sym], st.tickers[sym], time, price, size)
    {
      if sym == "" {
        return;
      }
      var got := st.GetTicker(sym);
      if got.None? {
        return;
      }
      var k := Tick(time, price, size, st.filters, allow);
      ghost var m := st.tickers;
      ReplayLaws.StepCounts(c, risk, m[sym], k);
      hide ReplayLaws.TakenIn;
      if time < c.open || time > c.exit + 5 * MINUTE {
        return;
      }
      if price <= 0.0 || size <= 0.0 {
        return;
      }
      hide *;

      UpdateMarket(c, sym, k);
      var ts := st.tickers[sym];
      var sawCross := DetectCross(c, sym, k, ts);
      assert st.tickers == m[sym := Recorded(c, m[sym], k)];
      Act(c, sym, k, ts, sawCross);
      assert st.tickers == m[sym := Step(c, risk, m[sym], k)];
    }

    // ---- Opening metrics, selection, tracking ----

    /** One streamed minute bar; `midnight` is the session day's local midnight. */
    method OnMinuteAgg(c: Clock, midnight: int, k: Agg)
      modifies st`tickers
      ensures
        var t, minute := OrNew(Fanout.Lookup(old(st.tickers), k.symbol), k.symbol), MinuteOf(midnight, k.start);
        st.tickers ==
          if k.symbol != "" && k.symbol in st.watchlist && InOpening(c, midnight, k.start)
          then old(st.tickers)[k.symbol := t.(opening := OpenRange.StreamStep(t.opening, minute, k.bar))]
          else old(st.tickers)
    {
      var sym, bar := k.symbol, k.bar;
      if sym == "" {
        return;
      }
      if sym !in st.watchlist {
        return;
      }
      if k.start < c.open || k.start >= c.sel {
        return;
      }
      var minute := (k.start - midnight) / MINUTE;
      if minute < 570 || minute > 574 {
        return;
      }
      st.UpsertTicker(sym, (t: Ticker) =>
        var o := t.opening;
        if o.open0930 == 0.0
        then t.(opening := o.(open0930 := bar.open, high := bar.high, low := bar.low,
                              estimated := minute != 570, vol := o.vol + bar.volume))
        else t.(opening := o.(high := if bar.high > o.high then bar.high else o.high,
                              low := if o.low == 0.0 || bar.low < o.low then bar.low else o.low,
                              vol := o.vol + bar.volume)));
      ghost var t := OrNew(Fanout.Lookup(old(st.tickers), sym), sym);
      assert st.tickers[sym] == t.(opening := OpenRange.StreamStep(t.opening, minute, bar));
    }

    /** The minute bars until selection, all symbols interleaved. */
    method CollectOpen5mViaStream(c: Clock, midnight: int, feed: seq<Agg>)
      modifies st`tickers
      ensures StreamedUpTo(c, midnight, feed, |feed|, st.watchlist, old(st.tickers), st.tickers)
    {
      ghost var before := st.tickers;
      hide OpenRange.StreamStep, InOpening;
      var i := 0;
      while i < |feed|
        invariant 0 <= i <= |feed|
        invariant StreamedUpTo(c, midnight, feed, i, st.watchlist, before, st.tickers)
      {
        StreamedOneMore(c, midnight, feed, i, st.watchlist, before, st.tickers);
        hide StreamedUpTo;
        OnMinuteAgg(c, midnight, feed[i]);
        i := i + 1;
      }
    }

    /** Stores the opening metrics in the order in which the workers delivered them. */
    method CollectOpen5mViaRest(got: seq<(string, OpenRange.Lookup)>)
      modifies st`tickers
      ensures st.tickers == Fanout.Fold(old(st.tickers), got, |got|, Fanout.Key, Collected)
    {
      var i := 0;
      while i < |got|
        invariant 0 <= i <= |got|
        invariant st.tickers == Fanout.Fold(old(st.tickers), got, i, Fanout.Key, Collected)
      {
        var (sym, r) := got[i];
        i := i + 1;
        if !r.Found? || r.open <= 0.0 || r.high <= 0.0 || r.low <= 0.0 {
          continue;
        }
        st.UpsertTicker(sym, (t: Ticker) =>
          t.(opening := t.opening.(open0930 := r.open, high := r.high, low := r.low, vol := r.vol)));
      }
    }

    /** Stores the official bars in order of arrival and lists the symbols that still pass. */
    method CorrectEach(got: seq<(string, OpenRange.Lookup)>) returns (listed: seq<string>)
      modifies st`tickers
      ensures st.tickers == Fanout.Fold(old(st.tickers), got, |got|, Fanout.Key, Corrected)
      ensures listed == Fanout.Listed(got, StillPasses(st.filters))
    {
      var f := st.filters;
      listed := [];
      var i := 0;
      assert got[..0] == [];
      while i < |got|
        invariant 0 <= i <= |got|
        invariant st.tickers == Fanout.Fold(old(st.tickers), got, i, Fanout.Key, Corrected)
        invariant listed == Fanout.Listed(got[..i], StillPasses(f))
      {
        var (sym, r) := got[i];
        Fanout.OneMore(old(st.tickers), got, i, Fanout.Key, Corrected, StillPasses(f));
        hide Fanout.Fold, Fanout.Listed, Range;
        i := i + 1;
        if !r.Found? || r.open <= 0.0 || r.high <= 0.0 || r.low <= 0.0 {
          continue;
        }
        var range := Range(r.open, r.high, r.low);
        st.UpsertTicker(sym, (t: Ticker) =>
          t.(opening := t.opening.(open0930 := r.open, estimated := false, high := r.high, low := r.low,
                                   vol := r.vol, rangePct := range)));
        if range >= f.rangeMin && range <= f.rangeMax && r.vol >= f.volMin && r.vol <= f.volMax {
          listed := listed + [sym];
        }
      }
      assert got[..i] == got;
    }

    /** Re-checks the candidates against the official bars; the result is sorted by symbol. */
    method CorrectCandidates(got: seq<(string, OpenRange.Lookup)>) returns (out: seq<string>)
      modifies st`tickers
      ensures st.tickers == Fanout.Fold(old(st.tickers), got, |got|, Fanout.Key, Corrected)
      ensures out == SortSymbols(Fanout.Listed(got, StillPasses(st.filters)))
    {
      var listed := CorrectEach(got);
      out := SortSymbols(listed);
    }

    /** Lists and marks the watchlist symbols whose opening range and volume pass. */
    method MarkCandidates() returns (listed: seq<string>)
      modifies st`tickers
      ensures listed == Candidates(st.filters, old(st.tickers), st.watchlist, |st.watchlist|)
      ensures MarkedUpTo(st.filters, old(st.tickers), st.tickers, st.watchlist)
    {
      var f, wl := st.filters, st.watchlist;
      listed := [];
      ghost var m := st.tickers;
      var i := 0;
      while i < |wl|
        invariant 0 <= i <= |wl|
        invariant Marking(f, m, st.tickers, wl, i, listed)
      {
        var sym := wl[i];
        MarkingOneMore(f, m, st.tickers, wl, i, listed);
        var got := st.GetTicker(sym);
        i := i + 1;
        hide Marking, Range;
        if got.None? {
          continue;
        }
        var o := got.value.opening;
        if o.open0930 <= 0.0 || o.high <= 0.0 || o.low <= 0.0 {
          continue;
        }
        var range := Range(o.open0930, o.high, o.low);
        if range >= f.rangeMin && range <= f.rangeMax && o.vol >= f.volMin && o.vol <= f.volMax {
          listed := listed + [sym];
          st.UpsertTicker(sym, (t: Ticker) => t.(opening := t.opening.(rangePct := range), status := Selected));
          assert st.tickers[sym] == Marked(got.value);
        }
      }
      assert wl[..i] == wl;
    }

    /** The 09:35 selection: the candidates, sorted by symbol; their tickers are marked. */
    method SelectCandidates() returns (out: seq<string>)
      modifies st`tickers
      ensures Sorted(StringLe, out)
      ensures multiset(out) == multiset(Candidates(st.filters, old(st.tickers), st.watchlist, |st.watchlist|))
      ensures Distinct(st.watchlist) ==> Distinct(out)
      ensures MarkedUpTo(st.filters, old(st.tickers), st.tickers, st.watchlist)
    {
      var listed := MarkCandidates();
      out := SortSymbols(listed);
      if Distinct(st.watchlist) {
        CandidatesDistinct(st.filters, old(st.tickers), st.watchlist, |st.watchlist|);
        Fanout.SortKeepsDistinct(listed, out);
      }
    }

    /** One opening trade: the VWAP, the last price, and the first cross-up from below. */
    method SeedTrade(c: Clock, k: Tick, ts: Ticker) returns (t: Ticker)
      ensures t == SeedStep(c, ts, k)
    {
      t := ts;
      if k.price <= 0.0 || k.size <= 0.0 {
        return;
      }
      if k.time == 0 {
        return;
      }
      var prevPrice, prevVwap := t.market.lastPrice, t.market.vwap;
      var pv, v := t.market.cumPV + k.price * k.size, t.market.cumV + k.size;
      var vwap := if v > 0.0 then pv / v else prevVwap;
      t := t.(market := t.market.(cumPV := pv, cumV := v, vwap := vwap,
                                  lastPrice := k.price, lastTrade := Some(k.time)));
      if !t.cross.saw && k.time >= c.open + MINUTE {
        if prevPrice > 0.0 && prevVwap > 0.0 && prevPrice < prevVwap && k.price >= vwap {
          t := t.(cross := Cross(true, Some(k.time), k.price));
        }
      }
    }

    /** Seeds from the opening trades; `complete` is false if the iterator failed after them. */
    method SeedVwap(c: Clock, a: seq<Tick>, complete: bool, ts: Ticker) returns (t: Ticker)
      ensures t == SeedOf(c, ts, a, complete)
    {
      t := ts;
      var i := 0;
      while i < |a|
        invariant 0 <= i <= |a|
        invariant t == SeedRun(c, ts, a, i)
      {
        t := SeedTrade(c, a[i], t);
        i := i + 1;
      }
      if !complete {
        return;
      }
      if t.market.cumV > 0.0 {
        t := t.(market := t.market.(prevVwap := t.market.vwap, prevPrice := t.market.lastPrice));
      }
    }

    // ---- Replay and forced close ----

    /** Feeds one symbol's trades in order; a filter update may land before any of them. */
    method ReplaySymbol(c: Clock, sym: string, trades: seq<Tick>, allow: bool)
      requires st.Valid() && Keyed(st.tickers) && ClockOk(c) && st.clock.open == c.open
      requires sym != "" && sym in st.tickers
      modifies st`filters, st`tickers, st`events, st`appended
      ensures st.Valid() && Keyed(st.tickers)
      ensures var t, a := old(st.tickers)[sym], Permitted(trades, allow);
        && st.tickers == old(st.tickers)[sym := Run(c, risk, t, a, |a|)]
        && st.appended == old(st.appended) + Emitted(c, risk, t, a, |a|)
    {
      ghost var a := Permitted(trades, allow);
      var i := 0;
      while i < |trades|
        invariant 0 <= i <= |trades| && st.Valid() && Keyed(st.tickers)
        invariant Fed(c, risk, old(st.tickers), st.tickers, old(st.appended), st.appended, sym, a, i)
      {
        var k := trades[i];
        FedOneMore(c, risk, old(st.tickers), st.tickers, old(st.appended), st.appended, sym, a, i);
        hide Fed, Step, Emits;
        st.filters := k.filters;
        i := i + 1;
        if k.time == 0 {
          assert !Accepts(c, a[i - 1]);
          continue;
        }
        ProcessTrade(c, sym, k.time, k.price, k.size, allow);
      }
    }

    /** Closes what is still open at its last price, symbol by symbol of the watchlist. */
    method CloseAllOpenPositionsAt(time: int)
      requires st.Valid() && Keyed(st.tickers)
      modifies st`tickers, st`events, st`appended
      ensures st.Valid() && Keyed(st.tickers)
      ensures ClosedOut(st.clock, old(st.tickers), st.tickers, st.watchlist, time)
      ensures st.appended == old(st.appended) + CloseEvents(old(st.tickers), st.watchlist, |st.watchlist|, time)
    {
      hide Closing, ClosedOut, CloseEvents;
      var wl := st.watchlist;
      NoneClosed(st.clock, st.tickers, st.appended, wl, time);
      var i := 0;
      while i < |wl|
        invariant 0 <= i <= |wl| && st.Valid() && Keyed(st.tickers)
        invariant Closing(st.clock, old(st.tickers), st.tickers, old(st.appended), st.appended, wl, i, time)
      {
        var sym := wl[i];
        ClosingOneMore(st.clock, old(st.tickers), st.tickers, old(st.appended), st.appended, wl, i, time);
        i := i + 1;
        var got := st.GetTicker(sym);
        if got.None? {
          continue;
        }
        var t := got.value;
        if t.position.held && !t.position.exited {
          var px := t.market.lastPrice;
          if px <= 0.0 {
            px := t.position.entryPrice;
          }
          ClosePosition(time, sym, TimeExit, px);
        }
      }
      AllClosed(st.clock, old(st.tickers), st.tickers, old(st.appended), st.appended, wl, time);
    }

    method OnElevenAM(time: int)
      requires st.Valid() && Keyed(st.tickers)
      modifies st`tickers, st`events, st`appended
      ensures st.Valid() && Keyed(st.tickers)
      ensures ClosedOut(st.clock, old(st.tickers), st.tickers, st.watchlist, time)
      ensures st.appended == old(st.appended) + [Event(Eleven, "", time)]
                             + CloseEvents(old(st.tickers), st.watchlist, |st.watchlist|, time)
    {
      hide Store.Logged;
      st.AddEvent(Event(Eleven, "", time));
      CloseAllOpenPositionsAt(time);
    }

    // ---- Messages ----

    /** A SYSTEM message, stamped with the wall clock. */
    method Emit(sym: string)
      requires st.Valid()
      modifies st`events, st`appended
      ensures st.Valid() && Quiet(old(st.appended), st.appended)
    {
      var now: int := *;
      hide Store.Logged;
      st.AddEvent(Event(System, sym, now));
    }

    // ---- Tracking ----

    method ShallowStates(candidates: seq<string>) returns (tracked: map<string, Ticker>)
      ensures tracked == TrackingOf(st.tickers, candidates)
    {
      tracked := map[];
      var i := 0;
      while i < |candidates|
        invariant 0 <= i <= |candidates|
        invariant tracked == TrackingOf(st.tickers, candidates[..i])
      {
        var sym := candidates[i];
        assert candidates[..i + 1] == candidates[..i] + [sym];
        i := i + 1;
        var t := st.GetTicker(sym);
        if t.Some? {
          tracked := tracked[sym := t.value.(status := Tracking)];
        }
      }
      assert candidates[..i] == candidates;
    }

    /** Applies the history results as they arrive; a failed one is reported and leaves its ticker alone. */
    method ApplyHistory(base: map<string, Ticker>, got: seq<(string, History)>) returns (tracked: map<string, Ticker>)
      requires st.Valid()
      modifies st`events, st`appended
      ensures st.Valid() && Quiet(old(st.appended), st.appended)
      ensures tracked == Fanout.Fold(base, got, |got|, Fanout.Key, WithHistory)
    {
      tracked := base;
      var i := 0;
      while i < |got|
        invariant 0 <= i <= |got| && st.Valid() && Quiet(old(st.appended), st.appended)
        invariant tracked == Fanout.Fold(base, got, i, Fanout.Key, WithHistory)
      {
        var (sym, r) := got[i];
        i := i + 1;
        if r.NoHistory? {
          Emit(sym);
          continue;
        }
        if sym !in tracked {
          continue;
        }
        var t := tracked[sym];
        tracked := tracked[sym := t.(opening := t.opening.(prevAvg := r.avg, todayPct := r.todayPct))];
      }
    }

    method SeedAll(
      c: Clock, candidates: seq<string>, known: map<string, Ticker>,
      opening: string -> seq<Tick>, complete: string -> bool)
      returns (tracked: map<string, Ticker>)
      requires st.Valid() && Distinct(candidates)
      modifies st`events, st`appended
      ensures st.Valid() && Quiet(old(st.appended), st.appended)
      ensures SeededUpTo(c, known, tracked, candidates, opening, complete)
    {
      tracked := known;
      var i := 0;
      while i < |candidates|
        invariant 0 <= i <= |candidates| && st.Valid() && Quiet(old(st.appended), st.appended)
        invariant SeededUpTo(c, known, tracked, candidates[..i], opening, complete)
      {
        var sym := candidates[i];
        assert candidates[..i + 1] == candidates[..i] + [sym];
        i := i + 1;
        if sym !in tracked {
          continue;
        }
        assert sym !in candidates[..i - 1];
        var t := SeedVwap(c, opening(sym), complete(sym), tracked[sym]);
        tracked := tracked[sym := t];
        if !complete(sym) {
          Emit(sym);
        }
      }
      assert candidates[..i] == candidates;
    }

    /** Copies the tracked states into the store, in whatever order the map yields them. */
    method PutBack(tracked: map<string, Ticker>)
      modifies st`tickers
      ensures st.tickers == old(st.tickers) + tracked
    {
      var left := tracked.Keys;
      while left != {}
        invariant left <= tracked.Keys
        invariant st.tickers == old(st.tickers) + (map s | s in tracked.Keys - left :: tracked[s])
        decreases |left|
      {
        var sym :| sym in left;
        var ts := tracked[sym];
        st.UpsertTicker(sym, (t: Ticker) => ts);
        left := left - {sym};
      }
      assert (map s | s in tracked.Keys - left :: tracked[s]) == tracked;
    }

    /** Tracks the candidates: shallow copies, then history, then the seed; the store receives the result. */
    method BuildTrackedStates(
      c: Clock, candidates: seq<string>, got: seq<(string, History)>,
      opening: string -> seq<Tick>, complete: string -> bool)
      returns (tracked: map<string, Ticker>)
      requires st.Valid() && Distinct(candidates)
      modifies st`tickers, st`events, st`appended
      ensures st.Valid() && Quiet(old(st.appended), st.appended)
      ensures
        var known := Fanout.Fold(TrackingOf(old(st.tickers), candidates), got, |got|, Fanout.Key, WithHistory);
        SeededUpTo(c, known, tracked, candidates, opening, complete)
      ensures st.tickers == old(st.tickers) + tracked
    {
      var base := ShallowStates(candidates);
      var known := ApplyHistory(base, got);
      ghost var log := st.appended;
      tracked := SeedAll(c, candidates, known, opening, complete);
      QuietMore(old(st.appended), log, st.appended);
      PutBack(tracked);
    }

    /** Asks the pool for the candidates' history and replaces the store's table by their tracked states. */
    method Track(c: Clock, candidates: seq<string>, d: Feeds, pool: Gather<History>)
      requires st.Valid() && Distinct(candidates) && OnlyFresh(st.tickers, st.watchlist) && IsPool(pool)
      modifies st`tickers, st`events, st`appended
      ensures st.Valid() && Quiet(old(st.appended), st.appended) && Keyed(st.tickers)
      ensures SeedsOf(c, PicksFrom(old(st.tickers), candidates, d.avg), st.tickers, d.opening, d.complete)
      ensures forall s | s in st.tickers :: !st.tickers[s].position.held
    {
      hide Fanout.Fold, TrackingOf, SeededUpTo, BasesOf, SeedsOf, Keyed, Quiet, OnlyFresh;
      ghost var table, picks := st.tickers, PicksFrom(st.tickers, candidates, d.avg);
      var got := pool(candidates, HistoryFor(st.tickers, d.avg));
      PoolDelivers(pool, candidates, HistoryFor(table, d.avg));
      ghost var known := Fanout.Fold(TrackingOf(table, candidates), got, |got|, Fanout.Key, WithHistory);
      KnownAre(table, candidates, st.watchlist, d.avg, got);
      var tracked := BuildTrackedStates(c, candidates, got, d.opening, d.complete);
      SeededBases(c, picks, known, tracked, candidates, d.opening, d.complete);
      st.SetTrackedTickers(tracked);
    }

    /** Copies of all tickers, in no particular order. */
    method TickerStates() returns (states: seq<Ticker>)
      requires Keyed(st.tickers)
      ensures |states| == |st.tickers|
      ensures forall t :: t in states <==> t.symbol in st.tickers && st.tickers[t.symbol] == t
      ensures Report.DistinctSymbols(states)
    {
      var left := st.tickers.Keys;
      states := [];
      while left != {}
        invariant left <= st.tickers.Keys && |states| + |left| == |st.tickers.Keys|
        invariant forall t :: t in states <==>
          t.symbol in st.tickers.Keys - left && st.tickers[t.symbol] == t
        invariant Report.DistinctSymbols(states)
        decreases |left|
      {
        var sym :| sym in left;
        assert forall i | 0 <= i < |states| :: states[i] in states;
        states := states + [st.tickers[sym]];
        left := left - {sym};
      }
    }

    // ---- Feeding trades ----

    /** Replays the listed symbols one after the other; an iterator that failed is reported. */
    method ReplayEach(c: Clock, day: string -> seq<Tick>, ended: string -> bool, allow: bool, order: seq<string>)
      requires st.Valid() && Keyed(st.tickers) && ClockOk(c) && st.clock == c
      requires "" !in st.tickers && LogTells(st.tickers, st.appended, None)
      requires Distinct(order) && Fanout.Lists(order, st.tickers)
      modifies st`filters, st`tickers, st`events, st`appended
      ensures st.Valid() && Keyed(st.tickers) && LogTells(st.tickers, st.appended, None)
      ensures Played(c, risk, old(st.tickers), st.tickers, Permitting(day, allow))
      ensures st.tickers.Keys == old(st.tickers.Keys)
      ensures Told(st.appended) ==
        Told(old(st.appended)) + Replayed(c, risk, old(st.tickers), Permitting(day, allow), order, |order|)
    {
      hide *;
      ghost var tracked, start, tapes := st.tickers, Told(st.appended), Permitting(day, allow);
      NothingPlayed(c, risk, tracked, tapes, order);
      var i := 0;
      while i < |order|
        invariant 0 <= i <= |order| && st.Valid()
        invariant Keyed(st.tickers) && LogTells(st.tickers, st.appended, None)
        invariant Played(c, risk, tracked, st.tickers, Partly(tapes, order[..i]))
        invariant Told(st.appended) == start + Replayed(c, risk, tracked, tapes, order, i)
      {
        var sym := order[i];
        NextUntouched(c, risk, tracked, st.tickers, tapes, order, i);
        PermittedAt(day, allow, sym);
        PlayedOneMore(c, risk, tracked, st.tickers, tapes, order[..i], sym);
        TellsAfterRun(c, risk, st.tickers, st.appended, None, sym, tapes(sym));
        ToldNext(c, risk, tracked, tapes, order, i, start, st.appended);
        assert order[..i + 1] == order[..i] + [sym];
        ReplaySymbol(c, sym, day(sym), allow);
        i := i + 1;
        if !ended(sym) {
          ghost var log := st.appended;
          Emit(sym);
          QuietTells(st.tickers, log, st.appended, None);
          QuietTold(log, st.appended);
        }
      }
      AllPlayed(c, risk, tracked, st.tickers, tapes, order);
    }

    /** Replays the tracked symbols in symbol order. */
    method ReplayAll(c: Clock, day: string -> seq<Tick>, ended: string -> bool, allow: bool)
      requires st.Valid() && Keyed(st.tickers) && ClockOk(c) && st.clock == c
      requires "" !in st.tickers && LogTells(st.tickers, st.appended, None)
      modifies st`filters, st`tickers, st`events, st`appended
      ensures st.Valid() && Keyed(st.tickers) && LogTells(st.tickers, st.appended, None)
      ensures Played(c, risk, old(st.tickers), st.tickers, Permitting(day, allow))
      ensures st.tickers.Keys == old(st.tickers.Keys)
      ensures Told(st.appended) ==
        Told(old(st.appended)) + ReplaySays(c, risk, old(st.tickers), Permitting(day, allow))
    {
      hide *;
      var order := Fanout.SortedKeys(st.tickers);
      ReplayEach(c, day, ended, allow, order);
      SaysInOrder(c, risk, old(st.tickers), Permitting(day, allow), order);
    }

    /** A live trade, which may act, under the filters in force when it arrives. */
    method OnTrade(c: Clock, sym: string, k: Tick, ghost bell: Option<int>)
      requires st.Valid() && Keyed(st.tickers) && ClockOk(c) && st.clock == c
      requires "" !in st.tickers && LogTells(st.tickers, st.appended, bell)
      modifies st`filters, st`tickers, st`events, st`appended
      ensures st.Valid() && Keyed(st.tickers) && LogTells(st.tickers, st.appended, bell)
      ensures LiveTurn(c, risk, old(st.tickers), st.tickers, old(st.appended), st.appended, sym, k)
    {
      LiveTells(c, risk, st.tickers, st.appended, bell, sym, k.(allow := true));
      hide Step, Emits, LogTells, Keyed, ReplayLaws.TakenIn;
      st.filters := k.filters;
      ProcessTrade(c, sym, k.time, k.price, k.size, true);
    }

    /** Live trades in order of arrival, all symbols interleaved; a filter update may land before any of them. */
    method LiveLoop(c: Clock, feed: seq<(string, Tick)>, ghost bell: Option<int>)
      requires st.Valid() && Keyed(st.tickers) && ClockOk(c) && st.clock == c
      requires "" !in st.tickers && LogTells(st.tickers, st.appended, bell)
      modifies st`filters, st`tickers, st`events, st`appended
      ensures st.Valid() && Keyed(st.tickers) && LogTells(st.tickers, st.appended, bell)
      ensures Played(c, risk, old(st.tickers), st.tickers, LiveTapes(feed, |feed|))
      ensures st.tickers.Keys == old(st.tickers.Keys)
      ensures SaidSoFar(c, risk, old(st.tickers), feed, |feed|, old(st.appended), st.appended)
    {
      hide *;
      ghost var tracked, start := st.tickers, st.appended;
      LiveStarts(c, risk, tracked, feed);
      NothingSaid(c, risk, tracked, feed, start);
      var i := 0;
      while i < |feed|
        invariant 0 <= i <= |feed| && st.Valid() && Keyed(st.tickers) && LogTells(st.tickers, st.appended, bell)
        invariant Played(c, risk, tracked, st.tickers, LiveTapes(feed, i)) && st.tickers.Keys == tracked.Keys
        invariant SaidSoFar(c, risk, tracked, feed, i, start, st.appended)
      {
        var (sym, k) := feed[i];
        ghost var before, log := st.tickers, st.appended;
        OnTrade(c, sym, k, bell);
        LiveOn(c, risk, tracked, before, st.tickers, start, log, st.appended, feed, i);
        i := i + 1;
      }
    }

    /** Replays every tracked ticker and closes what is still open. */
    method ReplayAndClose(
      c: Clock, ghost picks: map<string, Opening>,
      ghost opening: string -> seq<Tick>, ghost complete: string -> bool,
      day: string -> seq<Tick>, ended: string -> bool)
      requires st.Valid() && ClockOk(c) && st.clock == c && Keyed(st.tickers)
      requires Named(picks, st.watchlist) && LogTells(st.tickers, st.appended, None)
      requires SeedsOf(c, picks, st.tickers, opening, complete)
      modifies st`filters, st`tickers, st`events, st`appended
      ensures st.Valid() && Keyed(st.tickers) && LogTells(st.tickers, st.appended, Some(c.exit))
      ensures SessionDone(c, risk, picks, st.tickers, opening, complete, Permitting(day, true))
      ensures Told(st.appended) ==
        Told(old(st.appended)) + DaySays(c, risk, old(st.tickers), Permitting(day, true), st.watchlist)
    {
      hide *;
      ghost var tracked := st.tickers;
      SeedsAreNamed(c, picks, tracked, opening, complete, st.watchlist);
      ReplayAll(c, day, ended, true);
      ghost var played, log := st.tickers, st.appended;
      OnElevenAM(c.exit);
      TellsAfterClose(c, played, st.tickers, log, st.watchlist, c.exit);
      CloseTold(played, st.watchlist, c.exit, log);
      DaySaysSo(c, risk, tracked, played, Permitting(day, true), st.watchlist, Told(old(st.appended)));
      ClosingEnds(c, risk, picks, tracked, played, st.tickers, st.watchlist, opening, complete, Permitting(day, true));
    }

    /**
     A session joined late: the trades since selection are caught up without acting, which
     buys and logs nothing, then the live feed may act; the timed close falls after any
     number of its trades, and the loop may take some more before it notices.
     */
    method CatchUpThenLive(
      c: Clock, ghost picks: map<string, Opening>,
      ghost opening: string -> seq<Tick>, ghost complete: string -> bool,
      missed: string -> seq<Tick>, feed: seq<(string, Tick)>, later: seq<(string, Tick)>)
      requires st.Valid() && ClockOk(c) && RiskOk(risk) && st.clock == c && Keyed(st.tickers)
      requires Named(picks, st.watchlist) && LogTells(st.tickers, st.appended, None)
      requires SeedsOf(c, picks, st.tickers, opening, complete)
      requires TapesOk(c, opening, Joined(JoinedLate(missed, feed), LiveTapes(later, |later|)))
      modifies st`filters, st`tickers, st`events, st`appended
      ensures st.Valid() && Keyed(st.tickers) && LogTells(st.tickers, st.appended, Some(c.exit))
      ensures LiveDone(c, risk, picks, st.tickers, opening, complete,
                       JoinedLate(missed, feed), LiveTapes(later, |later|))
      ensures ClosedEndWell(risk, st.tickers)
      ensures LateOnly(c, later) ==> AllEndWell(risk, st.tickers)
      ensures Told(st.appended) ==
        Told(old(st.appended)) + SessionSays(c, risk, old(st.tickers), missed, feed, later, st.watchlist)
    {
      hide *;
      ghost var tracked, tapes := st.tickers, JoinedLate(missed, feed);
      SeedsAreNamed(c, picks, tracked, opening, complete, st.watchlist);
      ReplayAll(c, missed, (s: string) => true, false);
      ghost var between, caught := st.tickers, st.appended;
      LiveLoop(c, feed, None);
      ghost var played, log := st.tickers, st.appended;
      AllSaid(c, risk, between, feed, caught, log);
      PlayedTwice(c, risk, tracked, between, played, missed, feed);
      OnElevenAM(c.exit);
      TellsAfterClose(c, played, st.tickers, log, st.watchlist, c.exit);
      ghost var closed, rung := st.tickers, st.appended;
      ClosingEnds(c, risk, picks, tracked, played, closed, st.watchlist, opening, complete, tapes);
      ClosedKeys(c, played, closed, st.watchlist, c.exit);
      LiveLoop(c, later, Some(c.exit));
      AllSaid(c, risk, closed, later, rung, st.appended);
      CloseTold(played, st.watchlist, c.exit, log);
      SessionSaysSo(c, risk, tracked, between, played, closed, missed, feed, later, st.watchlist,
                    Told(old(st.appended)));
      LaterTrades(c, risk, picks, closed, st.tickers, opening, complete, tapes, LiveTapes(later, |later|));
      JoinedLatches(missed, feed, later);
      LateFeedIsLate(c, later);
      LiveEndsWell(c, risk, picks, st.tickers, opening, complete, tapes, LiveTapes(later, |later|));
    }

    // ---- Report and sold-off scan ----

    /** Copies the states and reports on them. */
    method ReportOnStore(end: int) returns (rep: Report.Report)
      requires Keyed(st.tickers) && ClosedEndWell(risk, st.tickers)
      ensures ReportsOn(risk, st.filters, st.tickers, end, rep)
    {
      hide Report.RowTells, Report.MissTells, Report.HasPosition, Report.Agrees, Report.Rows, Report.Misses,
           Report.SummaryOf, Describes, Explains, SoundRow, EndsWell;
      var states := TickerStates();
      rep := Report.BuildReport(states, st.filters, end);
      forall row ensures row in rep.trades <==> Describes(st.tickers, end, row) {
        RowsDescribe(st.tickers, states, end, row);
        assert row in rep.trades <==> row in multiset(rep.trades);
      }
      forall x ensures x in rep.noEntries <==> Explains(st.tickers, st.filters, x) {
        MissesExplain(st.tickers, states, st.filters, x);
        assert x in rep.noEntries <==> x in multiset(rep.noEntries);
      }
      forall row | row in rep.trades && row.symbol in st.tickers && !Open(st.tickers[row.symbol])
        ensures SoundRow(risk, row)
      {
        assert Describes(st.tickers, end, row);
        DescribedIsSound(risk, st.tickers, end, row);
      }
    }

    /** The opening figures of the watchlist's tickers that have them all. */
    method SnapshotOpen5mMetrics() returns (metrics: map<string, SoldOff.Metric>)
      ensures metrics == SoldOff.MetricsOf(st.tickers, st.watchlist)
    {
      var wl := st.watchlist;
      metrics := map[];
      var i := 0;
      while i < |wl|
        invariant 0 <= i <= |wl| && metrics == SoldOff.MetricsOf(st.tickers, wl[..i])
      {
        var sym := wl[i];
        assert wl[..i + 1] == wl[..i] + [sym];
        i := i + 1;
        var t := st.GetTicker(sym);
        if t.None? {
          continue;
        }
        var o := t.value.opening;
        if o.open0930 <= 0.0 || o.high <= 0.0 || o.low <= 0.0 || o.vol <= 0.0 {
          continue;
        }
        metrics := metrics[sym := SoldOff.Metric(o.open0930, o.vol, (o.high - o.low) / o.open0930)];
      }
      assert wl[..i] == wl;
    }

    /** Both stages of the scan, under the filters now in force. */
    method ScanSoldOff(c: Clock, scanEnd: int, metrics: map<string, SoldOff.Metric>, d: Feeds, pools: Pools)
      returns (out: seq<SoldOff.Row>)
      requires st.Valid() && PoolsOk(pools)
      modifies st`events, st`appended
      ensures st.Valid() && Quiet(old(st.appended), st.appended)
      ensures SoldOffIs(st.filters, c.open, scanEnd, metrics, d, out)
    {
      hide SoldOff.ScanOutput, SoldOff.Survivor, SoldOff.RowFor, SoldOff.InScope, SoldOff.TodayOf, SoldOff.SortRows,
           Fanout.Fold, Fanout.Listed, Fanout.OnceEach, Fanout.Lists, Quiet, IsPool;
      var f := st.filters;
      if scanEnd < c.open + MINUTE {
        QuietSame(st.appended);
        return [];
      }
      var syms := SoldOff.Scope(f, metrics);
      if |syms| == 0 {
        SoldOff.NobodyAsked(f, metrics, d.scan, d.avg, syms);
        QuietSame(st.appended);
        return [];
      }
      var got := pools.scan(syms, d.scan);
      PoolDelivers(pools.scan, syms, d.scan);
      Emit("");
      ghost var log := st.appended;
      var pre := SoldOff.FirstStage(f, metrics, got);
      if |pre| == 0 {
        SoldOff.NothingToList(f, metrics, d.scan, d.avg, syms, got);
        Emit("");
        QuietMore(old(st.appended), log, st.appended);
        return [];
      }
      var survivors := Fanout.SortedKeys(pre);
      var today := SoldOff.TodayFor(pre, d.avg);
      var got2 := pools.today(survivors, today);
      PoolDelivers(pools.today, survivors, today);
      SoldOff.ScanMeetsSpec(f, metrics, d.scan, d.avg, syms, got, survivors, today, got2);
      out := SoldOff.SecondStage(f, pre, got2);
      Emit("");
      QuietMore(old(st.appended), log, st.appended);
    }

    // ---- A whole replay ----

    /** Selection on a table that no trade has touched. */
    method SelectFrom() returns (candidates: seq<string>)
      requires st.Valid() && OnlyFresh(st.tickers, st.watchlist) && Distinct(st.watchlist)
      modifies st`tickers, st`events, st`appended
      ensures st.Valid() && Quiet(old(st.appended), st.appended)
      ensures MarkedUpTo(st.filters, old(st.tickers), st.tickers, st.watchlist)
      ensures OnlyFresh(st.tickers, st.watchlist) && Keyed(st.tickers) && Distinct(candidates)
      ensures forall s :: s in candidates <==> s in st.watchlist && IsCandidate(st.filters, old(st.tickers), s)
    {
      Emit("");
      ghost var table := st.tickers;
      candidates := SelectCandidates();
      CandidatesAre(st.filters, table, st.watchlist, |st.watchlist|);
      assert st.watchlist[..|st.watchlist|] == st.watchlist;
      forall s ensures s in candidates <==> s in st.watchlist && IsCandidate(st.filters, table, s) {
        assert s in candidates <==> s in multiset(candidates);
      }
    }

    /** Tracks, replays and closes the candidates, if there are any. */
    method FollowCandidates(
      c: Clock, candidates: seq<string>, d: Feeds, pool: Gather<History>,
      day: string -> seq<Tick>, ended: string -> bool)
      requires st.Valid() && ClockOk(c) && RiskOk(risk) && st.clock == c && "" !in st.watchlist && IsPool(pool)
      requires TapesOk(c, d.opening, Permitting(day, true)) && Distinct(candidates)
      requires Keyed(st.tickers) && OnlyFresh(st.tickers, st.watchlist) && Quiet([], st.appended)
      modifies st`filters, st`tickers, st`events, st`appended
      ensures st.Valid() && Keyed(st.tickers) && AllEndWell(risk, st.tickers)
      ensures LogTells(st.tickers, st.appended, if candidates == [] then None else Some(c.exit))
      ensures candidates == [] ==> st.tickers == old(st.tickers) && Told(st.appended) == []
      ensures candidates != [] ==>
        var picks := PicksFrom(old(st.tickers), candidates, d.avg);
        && SessionDone(c, risk, picks, st.tickers, d.opening, d.complete, Permitting(day, true))
        && Told(st.appended) ==
             DaySays(c, risk, SeedTable(c, picks, d.opening, d.complete), Permitting(day, true), st.watchlist)
    {
      hide DaySays, SeedTable, SeedsOf, SessionDone, LogTells, Told;
      ghost var log := st.appended;
      Emit("");
      QuietMore([], log, st.appended);
      if |candidates| == 0 {
        NothingLogged(st.tickers, st.appended);
        NothingTold(st.appended);
        return;
      }
      ghost var picks := PicksFrom(st.tickers, candidates, d.avg);
      log := st.appended;
      Track(c, candidates, d, pool);
      QuietMore([], log, st.appended);
      SeedsAreNamed(c, picks, st.tickers, d.opening, d.complete, st.watchlist);
      NothingLogged(st.tickers, st.appended);
      SeedsAre(c, picks, st.tickers, d.opening, d.complete);
      NothingTold(st.appended);
      ReplayAndClose(c, picks, d.opening, d.complete, day, ended);
      forall s ensures Latched(Permitting(day, true)(s)) {
        ReplayLatches(day(s));
      }
      DoneEndsWell(c, risk, picks, st.tickers, d.opening, d.complete, Permitting(day, true));
    }

    /** All phases of a replay on a cleared store. */
    method RunPhases(c: Clock, d: Feeds, pools: Pools, day: string -> seq<Tick>, ended: string -> bool)
      returns (metrics: map<string, SoldOff.Metric>)
      requires st.Valid() && ClockOk(c) && RiskOk(risk) && st.clock == c
      requires st.tickers == map[] && Quiet([], st.appended)
      requires Distinct(st.watchlist) && "" !in st.watchlist && PoolsOk(pools)
      requires TapesOk(c, d.opening, Permitting(day, true))
      modifies st`filters, st`tickers, st`events, st`appended
      ensures st.Valid() && Keyed(st.tickers) && AllEndWell(risk, st.tickers)
      ensures LogTells(st.tickers, st.appended,
                       if ReplayPicks(old(st.filters), st.watchlist, d) == map[] then None else Some(c.exit))
      ensures metrics == SoldOff.MetricsOf(CollectedTable(st.watchlist, d.lookup), st.watchlist)
      ensures st.tickers == ReplayTable(c, risk, old(st.filters), st.watchlist, d, Permitting(day, true))
      ensures Told(st.appended) == ReplayLog(c, risk, old(st.filters), st.watchlist, d, Permitting(day, true))
    {
      hide DaySays, SeedTable, SeedsOf, SessionDone, LogTells, Told;
      ghost var f, table := st.filters, CollectedTable(st.watchlist, d.lookup);
      var got := pools.metrics(st.watchlist, d.lookup);
      PoolDelivers(pools.metrics, st.watchlist, d.lookup);
      CollectOpen5mViaRest(got);
      CollectedIs(st.watchlist, d.lookup, got);
      metrics := SnapshotOpen5mMetrics();
      ghost var log := st.appended;
      var candidates := SelectFrom();
      QuietMore([], log, st.appended);
      ghost var marked := st.tickers;
      FollowCandidates(c, candidates, d, pools.history, day, ended);
      RunIsExact(c, risk, f, st.watchlist, d, marked, candidates, st.tickers, Permitting(day, true));
    }

    /**
     `RunHistoricForDate` once the session day is resolved.  An uncancelled run leaves
     exactly the chosen symbols in the store, each at the end of its own session, hence
     flat; if nothing was chosen the collected table stays as it was.  The log holds the
     trades of these tickers and nothing else but messages, and the report agrees with the table.
     */
    method RunHistoric(
      c: Clock, session: int, d: Feeds, pools: Pools, day: string -> seq<Tick>, ended: string -> bool, scanAt: int)
      returns (rep: Report.Report)
      requires st.Valid() && ClockOk(c) && RiskOk(risk) && PoolsOk(pools)
      requires Distinct(st.watchlist) && "" !in st.watchlist
      requires TapesOk(c, d.opening, Permitting(day, true))
      modifies st
      ensures st.Valid() && st.session == session
      ensures st.tickers == ReplayTable(c, risk, old(st.filters), st.watchlist, d, Permitting(day, true))
      ensures AllEndWell(risk, st.tickers)
      ensures
        var bell := if ReplayPicks(old(st.filters), st.watchlist, d) == map[] then None else Some(c.exit);
        && LogTells(st.tickers, st.appended, bell)
        && (|st.appended| <= st.maxEvents ==> LogTells(st.tickers, st.events, bell))
      ensures Told(st.appended) == ReplayLog(c, risk, old(st.filters), st.watchlist, d, Permitting(day, true))
      ensures ReportsOn(risk, st.filters, st.tickers, c.exit, rep)
      ensures SoldOffIs(
        st.filters, c.open, Sooner(scanAt, c.exit),
        SoldOff.MetricsOf(CollectedTable(st.watchlist, d.lookup), st.watchlist), d, rep.soldOff)
    {
      hide *;
      st.ResetForHistoricRun(session);
      st.SetTimes(c);
      QuietSame([]);
      Announce();
      ghost var bell := if ReplayPicks(st.filters, st.watchlist, d) == map[] then None else Some(c.exit);
      var metrics := RunPhases(c, d, pools, day, ended);
      AllMeansClosed(risk, st.tickers);
      rep := ReportOnStore(c.exit);
      ghost var log := st.appended;
      var soldOff := Finish(c, scanAt, c.exit, metrics, d, pools, bell);
      QuietTold(log, st.appended);
      ReportsCarry(risk, st.filters, st.tickers, c.exit, rep, soldOff);
      rep := rep.(soldOff := soldOff);
    }

    /** The opening messages of a run. */
    method Announce()
      requires st.Valid() && Quiet([], st.appended)
      modifies st`events, st`appended
      ensures st.Valid() && Quiet([], st.appended)
    {
      ghost var log := st.appended;
      Emit("");
      QuietMore([], log, st.appended);
    }

    /** The scan for the finished report and the last message. */
    method Finish(
      c: Clock, scanAt: int, end: int, metrics: map<string, SoldOff.Metric>, d: Feeds, pools: Pools,
      ghost bell: Option<int>)
      returns (soldOff: seq<SoldOff.Row>)
      requires st.Valid() && PoolsOk(pools)
      requires LogTells(st.tickers, st.appended, bell)
      modifies st`events, st`appended
      ensures st.Valid() && LogTells(st.tickers, st.appended, bell)
      ensures |st.appended| <= st.maxEvents ==> LogTells(st.tickers, st.events, bell)
      ensures Quiet(old(st.appended), st.appended)
      ensures SoldOffIs(st.filters, c.open, Sooner(scanAt, end), metrics, d, soldOff)
    {
      hide *;
      ghost var log := st.appended;
      soldOff := ScanSoldOff(c, Sooner(scanAt, end), metrics, d, pools);
      QuietTells(st.tickers, log, st.appended, bell);
      ghost var scanned := st.appended;
      Emit("");
      QuietTells(st.tickers, scanned, st.appended, bell);
      QuietMore(log, scanned, st.appended);
      st.KeepsAll();
    }

    // ---- A whole session joined while it runs ----

    /** Minute bars from the stream, or by REST for a session joined after the selection. */
    method LiveCollect(c: Clock, midnight: int, stream: Option<seq<Agg>>, d: Feeds, pools: Pools)
      requires st.tickers == map[] && Distinct(st.watchlist) && "" !in st.watchlist && PoolsOk(pools)
      modifies st`tickers
      ensures st.tickers == OpeningTable(c, midnight, stream, st.watchlist, d)
      ensures OnlyFresh(st.tickers, st.watchlist)
    {
      if stream.Some? {
        CollectOpen5mViaStream(c, midnight, stream.value);
      } else {
        var got := pools.metrics(st.watchlist, d.lookup);
        PoolDelivers(pools.metrics, st.watchlist, d.lookup);
        CollectOpen5mViaRest(got);
        CollectedIs(st.watchlist, d.lookup, got);
      }
    }

    /** Re-checks the selected candidates against their official bars. */
    method CorrectFrom(candidates: seq<string>, official: string -> OpenRange.Lookup, pool: Gather<OpenRange.Lookup>)
      returns (sel: seq<string>)
      requires Distinct(candidates) && IsPool(pool) && forall s | s in candidates :: s in st.tickers
      modifies st`tickers
      ensures CorrectedUpTo(old(st.tickers), st.tickers, candidates, official)
      ensures Distinct(sel) && forall s :: s in sel <==> s in candidates && Chosen(st.filters, official(s))
    {
      if |candidates| == 0 {
        return candidates;
      }
      ghost var table := st.tickers;
      var got := pool(candidates, official);
      PoolDelivers(pool, candidates, official);
      hide *;
      sel := CorrectCandidates(got);
      CorrectionIs(table, candidates, official, got);
      StillPassing(st.filters, candidates, official, got, sel);
    }

    /** Selection and correction; the scan reads the figures of the table as it then stands. */
    method LivePick(
      official: string -> OpenRange.Lookup, pool: Gather<OpenRange.Lookup>, ghost avg: string -> Option<real>)
      returns (sel: seq<string>, metrics: map<string, SoldOff.Metric>)
      requires st.Valid() && OnlyFresh(st.tickers, st.watchlist) && Distinct(st.watchlist) && IsPool(pool)
      modifies st`tickers, st`events, st`appended
      ensures st.Valid() && Quiet(old(st.appended), st.appended) && Distinct(sel)
      ensures OnlyFresh(st.tickers, st.watchlist) && Keyed(st.tickers) && forall s | s in sel :: s in st.tickers
      ensures PicksFrom(st.tickers, sel, avg) == LivePicks(st.filters, old(st.tickers), st.watchlist, official, avg)
      ensures metrics == SoldOff.MetricsOf(
        if sel == [] then old(st.tickers) else CheckedTable(st.filters, old(st.tickers), st.watchlist, official),
        st.watchlist)
      ensures st.tickers == CheckedTable(st.filters, old(st.tickers), st.watchlist, official)
    {
      hide PicksFrom, LivePicks, MarkedUpTo, CorrectedUpTo, OnlyFresh, Keyed, Quiet, Chosen, IsCandidate,
           SoldOff.MetricsOf, CheckedTable;
      ghost var f, table := st.filters, st.tickers;
      metrics := SnapshotOpen5mMetrics();
      var candidates := SelectFrom();
      ghost var marked := st.tickers;
      MarkedHas(f, table, marked, st.watchlist, candidates);
      sel := CorrectFrom(candidates, official, pool);
      CorrectedExactly(f, table, st.watchlist, official, avg, marked, candidates, st.tickers, sel);
      CorrectedStaysFresh(f, table, st.watchlist, official, marked, candidates, st.tickers);
      CheckedIs(f, table, st.watchlist, official, marked, candidates, st.tickers);
      if |sel| != 0 {
        metrics := SnapshotOpen5mMetrics();
      }
    }

    /**
     `runHistoricLiveToday`: collect, select, correct, track, catch up, follow the live feed
     with the timed close anywhere in it, report.  `gaveUp` is the clock when nothing is left
     to track.  Exactly the picks are in the store, each ended by its own trades; what is not
     open ended well, and nothing is open if the trades after the close are late ones.
     */
    method RunLiveToday(
      c: Clock, session: int, midnight: int, stream: Option<seq<Agg>>, d: Feeds, pools: Pools,
      official: string -> OpenRange.Lookup, correction: Gather<OpenRange.Lookup>,
      missed: string -> seq<Tick>, feed: seq<(string, Tick)>, later: seq<(string, Tick)>, scanAt: int, gaveUp: int)
      returns (rep: Report.Report)
      requires st.Valid() && ClockOk(c) && RiskOk(risk) && PoolsOk(pools) && IsPool(correction)
      requires Distinct(st.watchlist) && "" !in st.watchlist
      requires TapesOk(c, d.opening, Joined(JoinedLate(missed, feed), LiveTapes(later, |later|)))
      modifies st
      ensures st.Valid() && st.session == session
      ensures
        var table := OpeningTable(c, midnight, stream, st.watchlist, d);
        var picks := LivePicks(old(st.filters), table, st.watchlist, official, d.avg);
        var end := if picks == map[] then gaveUp else c.exit;
        var bell := if picks == map[] then None else Some(c.exit);
        && (picks != map[] ==>
              st.tickers == LiveTable(c, risk, picks, d, JoinedLate(missed, feed), LiveTapes(later, |later|)))
        && (picks == map[] ==>
              && st.tickers == CheckedTable(old(st.filters), table, st.watchlist, official)
              && OnlyFresh(st.tickers, st.watchlist))
        && LogTells(st.tickers, st.appended, bell)
        && (|st.appended| <= st.maxEvents ==> LogTells(st.tickers, st.events, bell))
        && Told(st.appended) == LiveLog(c, risk, picks, d, missed, feed, later, st.watchlist)
        && ReportsOn(risk, st.filters, st.tickers, end, rep)
        && SoldOffIs(
             st.filters, c.open, Sooner(scanAt, end),
             SoldOff.MetricsOf(
               if picks == map[] then table else CheckedTable(old(st.filters), table, st.watchlist, official),
               st.watchlist),
             d, rep.soldOff)
      ensures ClosedEndWell(risk, st.tickers)
      ensures LateOnly(c, later) ==> AllEndWell(risk, st.tickers)
    {
      hide *;
      st.ResetForHistoricRun(session);
      st.SetTimes(c);
      QuietSame([]);
      Announce();
      LiveCollect(c, midnight, stream, d, pools);
      ghost var log := st.appended;
      var sel, metrics := LivePick(official, correction, d.avg);
      QuietMore([], log, st.appended);
      var end := LiveFollow(c, sel, d, pools, missed, feed, later, gaveUp);
      rep := ReportOnStore(end);
      log := st.appended;
      var soldOff := Finish(c, scanAt, end, metrics, d, pools, if |sel| == 0 then None else Some(c.exit));
      QuietTold(log, st.appended);
      ReportsCarry(risk, st.filters, st.tickers, end, rep, soldOff);
      rep := rep.(soldOff := soldOff);
    }

    /** Tracks and follows the corrected candidates, if there are any. */
    method LiveFollow(
      c: Clock, sel: seq<string>, d: Feeds, pools: Pools,
      missed: string -> seq<Tick>, feed: seq<(string, Tick)>, later: seq<(string, Tick)>, gaveUp: int)
      returns (end: int)
      requires st.Valid() && ClockOk(c) && RiskOk(risk) && st.clock == c && "" !in st.watchlist && PoolsOk(pools)
      requires TapesOk(c, d.opening, Joined(JoinedLate(missed, feed), LiveTapes(later, |later|))) && Distinct(sel)
      requires Keyed(st.tickers) && OnlyFresh(st.tickers, st.watchlist) && Quiet([], st.appended)
      requires forall s | s in sel :: s in st.tickers
      modifies st`filters, st`tickers, st`events, st`appended
      ensures st.Valid() && Keyed(st.tickers)
      ensures LogTells(st.tickers, st.appended, if |sel| == 0 then None else Some(c.exit))
      ensures ClosedEndWell(risk, st.tickers)
      ensures LateOnly(c, later) ==> AllEndWell(risk, st.tickers)
      ensures
        var picks := PicksFrom(old(st.tickers), sel, d.avg);
        && (sel == [] <==> picks == map[]) && end == (if sel == [] then gaveUp else c.exit)
        && (sel == [] ==> st.tickers == old(st.tickers) && OnlyFresh(st.tickers, st.watchlist))
        && (sel != [] ==>
              st.tickers == LiveTable(c, risk, picks, d, JoinedLate(missed, feed), LiveTapes(later, |later|)))
        && Told(st.appended) == LiveLog(c, risk, picks, d, missed, feed, later, st.watchlist)
    {
      hide SessionSays, SeedTable, Told;
      ghost var picks := PicksFrom(st.tickers, sel, d.avg);
      PicksAnyOf(st.tickers, sel, d.avg);
      Announce();
      if |sel| == 0 {
        AllMeansClosed(risk, st.tickers);
        NothingLogged(st.tickers, st.appended);
        NothingTold(st.appended);
        return gaveUp;
      }
      hide *;
      ghost var log := st.appended;
      Track(c, sel, d, pools.history);
      QuietMore([], log, st.appended);
      SeedsAreNamed(c, picks, st.tickers, d.opening, d.complete, st.watchlist);
      NothingLogged(st.tickers, st.appended);
      SeedsAre(c, picks, st.tickers, d.opening, d.complete);
      NothingTold(st.appended);
      CatchUpThenLive(c, picks, d.opening, d.complete, missed, feed, later);
      LiveDoneIs(c, risk, picks, d, st.tickers, JoinedLate(missed, feed), LiveTapes(later, |later|));
      return c.exit;
    }
  }
}
