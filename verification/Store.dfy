/**
 The shared store.  Every method is one critical section under the store's mutex.
 Readers receive copies (`GetTicker`, `TickerStates`, `Snapshot`), so tickers are values
 and the ticker table is a map that the methods reassign.
 */
module Store {
  import opened Wrappers
  import opened Tape
  import Lifecycle

  /** What the log keeps: the newest `n` elements. */
  function Newest<T>(s: seq<T>, n: nat): seq<T> {
    if |s| <= n then s else s[|s| - n..]
  }

  /** `r` is as long as the bound allows and ends where `s` ends. */
  ghost predicate EndOf<T>(s: seq<T>, n: nat, r: seq<T>) {
    && |r| == (if |s| < n then |s| else n)
    && forall i | 0 <= i < |r| :: r[i] == s[|s| - |r| + i]
  }

  /** The new event is the last of the log; before it stands as much of the end of the old log as fits. */
  ghost predicate Logged(before: seq<Event>, after: seq<Event>, max: nat, ev: Event) {
    && |after| == (if |before| < max then |before| + 1 else max)
    && |after| > 0 && after[|after| - 1] == ev
    && forall i | 0 <= i < |after| - 1 :: after[i] == before[|before| + 1 - |after| + i]
  }

  predicate FiltersValid(f: Filters) {
    && 0.0 < f.rangeMin <= f.rangeMax
    && f.volMin <= f.volMax
    && f.todayMin <= f.todayMax
    && f.entryMin <= f.entryMax
    && f.priceMin <= f.priceMax
    && 0.0 < f.dropMin < 1.0
    && 0.0 < f.soldRangeMin < 1.0
    && 0.0 < f.soldTodayMin
  }

  /** Some trade of some ticker passes. */
  ghost predicate Passable(f: Filters) {
    exists o: Opening, minutes: real, price: real :: Lifecycle.Admits(f, o, minutes, price)
  }

  /** Valid are exactly the filters that something can pass, with a positive range and proper fractions for the scan. */
  lemma ValidFilters(f: Filters)
    ensures FiltersValid(f) <==>
      && Passable(f) && f.rangeMin > 0.0
      && f.dropMin > 0.0 && f.dropMin < 1.0
      && f.soldRangeMin > 0.0 && f.soldRangeMin < 1.0
      && f.soldTodayMin > 0.0
  {
    if FiltersValid(f) {
      var o := NO_OPENING.(rangePct := f.rangeMin, vol := f.volMin, todayPct := f.todayMin);
      assert Lifecycle.Admits(f, o, f.entryMin as real, f.priceMin);
    }
    if Passable(f) {
      var o: Opening, minutes: real, price: real :| Lifecycle.Admits(f, o, minutes, price);
      assert f.entryMin as real <= f.entryMax as real + 0.999;
    }
  }

  class Store {
    const watchlist: seq<string>
    const maxEvents: nat
    var filters: Filters
    var session: int
    var clock: Clock
    var tickers: map<string, Ticker>
    var events: seq<Event>

    /** Everything logged since the last reset. */
    ghost var appended: seq<Event>

    ghost predicate Valid()
      reads this`events, this`appended
    {
      maxEvents > 0 && events == Newest(appended, maxEvents)
    }

    /** A log that never filled up holds everything. */
    lemma KeepsAll()
      requires Valid()
      ensures |appended| <= maxEvents ==> events == appended
    {
    }

    /** The log is as long as it may be, and ends where the events appended since the reset end. */
    lemma KeepsTheNewest()
      requires Valid()
      ensures EndOf(appended, maxEvents, events)
    {
    }

    constructor (watchlist: seq<string>, maxEvents: nat, filters: Filters, session: int, clock: Clock)
      requires maxEvents > 0
      ensures Valid() && appended == [] && tickers == map[]
      ensures this.watchlist == watchlist && this.maxEvents == maxEvents
      ensures this.filters == filters && this.session == session && this.clock == clock
    {
      this.watchlist, this.maxEvents := watchlist, maxEvents;
      this.filters, this.session, this.clock := filters, session, clock;
      tickers, events, appended := map[], [], [];
    }

    /** A patch takes effect only if it succeeds and leaves valid filters; otherwise nothing changes. */
    method UpdateFilters(patch: Filters -> Option<Filters>) returns (ok: bool, current: Filters)
      modifies this`filters
      ensures ok <==> patch(old(filters)).Some? && FiltersValid(patch(old(filters)).value)
      ensures filters == if ok then patch(old(filters)).value else old(filters)
      ensures current == filters
      ensures FiltersValid(old(filters)) ==> FiltersValid(filters)
    {
      var next := patch(filters);
      if next.None? {
        return false, filters;
      }
      if !FiltersValid(next.value) {
        return false, filters;
      }
      filters := next.value;
      return true, filters;
    }

    method ResetForHistoricRun(session: int)
      requires Valid()
      modifies this`session, this`tickers, this`events, this`appended
      ensures Valid() && this.session == session && tickers == map[] && appended == []
    {
      this.session := session;
      tickers := map[];
      events := [];
      appended := [];
    }

    method SetTimes(c: Clock)
      modifies this`clock
      ensures clock == c
    {
      clock := c;
    }

    /** Applies `fn` to the ticker, creating it first if it is missing. */
    method UpsertTicker(sym: string, fn: Ticker -> Ticker)
      modifies this`tickers
      ensures tickers == old(tickers)[sym := fn(if sym in old(tickers) then old(tickers)[sym] else NewTicker(sym))]
    {
      var t := NewTicker(sym);
      if sym in tickers {
        t := tickers[sym];
      }
      tickers := tickers[sym := fn(t)];
    }

    function GetTicker(sym: string): Option<Ticker>
      reads this`tickers
    {
      if sym in tickers then Some(tickers[sym]) else None
    }

    method SetTrackedTickers(states: map<string, Ticker>)
      modifies this`tickers
      ensures tickers == states
    {
      tickers := states;
    }

    /** Appends, dropping the oldest event when the log is full. */
    method AddEvent(ev: Event)
      requires Valid()
      modifies this`events, this`appended
      ensures Valid() && appended == old(appended) + [ev]
      ensures Logged(old(events), events, maxEvents, ev)
    {
      if |events| >= maxEvents {
        events := events[1..] + [ev];
      } else {
        events := events + [ev];
      }
      appended := appended + [ev];
    }
  }
}
