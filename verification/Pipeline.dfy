/**
 What each phase of a session does to the ticker table, on values: the collected
 opening metrics, the 09:35 selection, the history results, the seed.
 */
module Pipeline {
  import opened Wrappers
  import opened Tape
  import opened Sorting
  import OpenRange

  predicate Usable(r: OpenRange.Lookup) {
    r.Found? && r.open > 0.0 && r.high > 0.0 && r.low > 0.0
  }

  function OrNew(before: Option<Ticker>, sym: string): Ticker {
    if before.Some? then before.value else NewTicker(sym)
  }

  /** A streamed minute bar. */
  datatype Agg = Agg(symbol: string, start: int, bar: OpenRange.Bar)

  /** The minute of the day at which the bar starts. */
  function MinuteOf(midnight: int, start: int): int {
    (start - midnight) / MINUTE
  }

  predicate InOpening(c: Clock, midnight: int, start: int) {
    c.open <= start < c.sel && 570 <= MinuteOf(midnight, start) <= 574
  }

  /** One symbol's opening bars among the first `n` of the stream, each with its minute. */
  function KeptBars(c: Clock, midnight: int, feed: seq<Agg>, n: nat, sym: string): seq<(int, OpenRange.Bar)>
    requires n <= |feed|
  {
    if n == 0 then []
    else
      var k := feed[n - 1];
      KeptBars(c, midnight, feed, n - 1, sym)
      + if k.symbol == sym && InOpening(c, midnight, k.start) then [(MinuteOf(midnight, k.start), k.bar)] else []
  }

  /** The ticker after its opening bars were streamed; it comes into being with the first. */
  function Streamed(before: Option<Ticker>, sym: string, kept: seq<(int, OpenRange.Bar)>): Option<Ticker> {
    if kept == [] then before
    else
      var t := OrNew(before, sym);
      Some(t.(opening := OpenRange.StreamFold(t.opening, kept, |kept|)))
  }

  lemma StreamedMore(before: Option<Ticker>, sym: string, kept: seq<(int, OpenRange.Bar)>, k: (int, OpenRange.Bar))
    ensures
      var t := OrNew(Streamed(before, sym, kept), sym);
      Streamed(before, sym, kept + [k]) == Some(t.(opening := OpenRange.StreamStep(t.opening, k.0, k.1)))
  {
    OpenRange.StreamSnoc(OrNew(before, sym).opening, kept, k);
  }

  /** `collectOpen5mViaREST`: unusable lookups leave the table alone. */
  function Collected(p: (string, OpenRange.Lookup), before: Option<Ticker>): Option<Ticker> {
    if !Usable(p.1) then None
    else
      var t, r := OrNew(before, p.0), p.1;
      Some(t.(opening := t.opening.(open0930 := r.open, high := r.high, low := r.low, vol := r.vol)))
  }

  function Range(open: real, high: real, low: real): real
    requires open > 0.0
  {
    (high - low) / open
  }

  /** `correctCandidatesOpen5mViaREST`: the official bars replace the streamed ones. */
  function Corrected(p: (string, OpenRange.Lookup), before: Option<Ticker>): Option<Ticker> {
    if !Usable(p.1) then None
    else
      var t, r := OrNew(before, p.0), p.1;
      Some(t.(opening := t.opening.(open0930 := r.open, estimated := false, high := r.high, low := r.low, vol := r.vol,
                                    rangePct := Range(r.open, r.high, r.low))))
  }

  predicate RangeAndVolumePass(f: Filters, range: real, vol: real) {
    f.rangeMin <= range <= f.rangeMax && f.volMin <= vol <= f.volMax
  }

  /** The symbol of a corrected candidate that still passes. */
  function StillPasses(f: Filters): ((string, OpenRange.Lookup)) -> Option<string> {
    (p: (string, OpenRange.Lookup)) =>
      if Usable(p.1) && RangeAndVolumePass(f, Range(p.1.open, p.1.high, p.1.low), p.1.vol) then Some(p.0) else None
  }

  predicate Selectable(f: Filters, o: Opening) {
    && o.open0930 > 0.0 && o.high > 0.0 && o.low > 0.0
    && RangeAndVolumePass(f, Range(o.open0930, o.high, o.low), o.vol)
  }

  predicate IsCandidate(f: Filters, m: map<string, Ticker>, sym: string) {
    sym in m && Selectable(f, m[sym].opening)
  }

  function Candidates(f: Filters, m: map<string, Ticker>, wl: seq<string>, n: nat): seq<string>
    requires n <= |wl|
  {
    if n == 0 then []
    else Candidates(f, m, wl, n - 1) + if IsCandidate(f, m, wl[n - 1]) then [wl[n - 1]] else []
  }

  function Marked(t: Ticker): Ticker
    requires t.opening.open0930 > 0.0
  {
    t.(opening := t.opening.(rangePct := Range(t.opening.open0930, t.opening.high, t.opening.low)), status := Selected)
  }

  /** A symbol whose own opening bars pass the range and volume filters. */
  predicate Chosen(f: Filters, r: OpenRange.Lookup) {
    Usable(r) && RangeAndVolumePass(f, Range(r.open, r.high, r.low), r.vol)
  }

  /** Figures with their history: the average, and today's volume in percent of it. */
  function WithAvg(o: Opening, avg: Option<real>): Opening {
    if avg.None? then o else o.(prevAvg := avg.value, todayPct := OpenRange.PercentOf(o.vol, avg.value))
  }

  /** Opening figures from the bars, with history; zeros where there is none. */
  function OpeningOf(r: OpenRange.Lookup, avg: Option<real>): Opening
    requires Usable(r)
  {
    WithAvg(Opening(r.open, false, r.high, r.low, r.vol, Range(r.open, r.high, r.low), 0.0, 0.0), avg)
  }

  datatype History = NoHistory | History(avg: real, todayPct: real)

  /** What a history worker reports for a ticker with opening volume `vol`. */
  function HistoryOf(vol: real, avg: Option<real>): History {
    match avg
    case None => NoHistory
    case Some(a) => History(a, OpenRange.PercentOf(vol, a))
  }

  /** A worker reads the ticker's opening volume from the table and asks for the average. */
  function HistoryFor(m: map<string, Ticker>, avg: string -> Option<real>): string -> History {
    (sym: string) => if sym in m then HistoryOf(m[sym].opening.vol, avg(sym)) else NoHistory
  }

  function WithHistory(p: (string, History), before: Option<Ticker>): Option<Ticker> {
    if p.1.NoHistory? || before.None? then None
    else
      var t := before.value;
      Some(t.(opening := t.opening.(prevAvg := p.1.avg, todayPct := p.1.todayPct)))
  }

  /** The seed of a tape whose iterator ran to its end, or failed after the trades given. */
  function SeedOf(c: Clock, t: Ticker, a: seq<Tick>, complete: bool): Ticker {
    if complete then Seeded(c, t, a) else SeedRun(c, t, a, |a|)
  }

  function Permitted(a: seq<Tick>, allow: bool): seq<Tick> {
    seq(|a|, i requires 0 <= i < |a| => a[i].(allow := allow))
  }

  /** A tracked ticker before any trade. */
  function Base(sym: string, o: Opening): Ticker {
    NewTicker(sym).(opening := o, status := Tracking)
  }

  /** The day's trades of every symbol, all allowed to act or none. */
  function Permitting(day: string -> seq<Tick>, allow: bool): string -> seq<Tick> {
    (sym: string) => Permitted(day(sym), allow)
  }

  /** The trades of one symbol among the first `n` of a live feed; live trades may act. */
  function LiveTape(feed: seq<(string, Tick)>, n: nat, sym: string): seq<Tick>
    requires n <= |feed|
  {
    if n == 0 then []
    else LiveTape(feed, n - 1, sym) + if feed[n - 1].0 == sym then [feed[n - 1].1.(allow := true)] else []
  }

  /** A session joined late: the missed trades, none of which may act, then the live ones. */
  function JoinedLate(missed: string -> seq<Tick>, feed: seq<(string, Tick)>): string -> seq<Tick> {
    (sym: string) => Permitted(missed(sym), false) + LiveTape(feed, |feed|, sym)
  }

  /** Seed, then the trades of the session, then the forced close. */
  function Ended(c: Clock, r: Risk, sym: string, o: Opening, opening: seq<Tick>, complete: bool, a: seq<Tick>): Ticker {
    TimeExited(c, Run(c, r, SeedOf(c, Base(sym, o), opening, complete), a, |a|), c.exit)
  }

  lemma {:induction false} CandidatesAre(f: Filters, m: map<string, Ticker>, wl: seq<string>, n: nat)
    requires n <= |wl|
    ensures forall s :: s in Candidates(f, m, wl, n) <==> s in wl[..n] && IsCandidate(f, m, s)
  {
    if n > 0 {
      CandidatesAre(f, m, wl, n - 1);
      assert wl[..n] == wl[..n - 1] + [wl[n - 1]];
    }
  }

  lemma {:induction false} CandidatesDistinct(f: Filters, m: map<string, Ticker>, wl: seq<string>, n: nat)
    requires n <= |wl| && Distinct(wl)
    ensures Distinct(Candidates(f, m, wl, n))
  {
    if n > 0 {
      CandidatesDistinct(f, m, wl, n - 1);
      CandidatesAre(f, m, wl, n - 1);
      var k := Candidates(f, m, wl, n - 1);
      assert wl[n - 1] !in wl[..n - 1];
      assert forall i | 0 <= i < |k| :: k[i] in k;
    }
  }

  lemma {:induction false} SeedKeepsRest(c: Clock, t: Ticker, a: seq<Tick>, n: nat)
    requires n <= |a|
    ensures var u := SeedRun(c, t, a, n);
      u.symbol == t.symbol && u.opening == t.opening && u.position == t.position
      && u.excursion == t.excursion && u.status == t.status
  {
    if n > 0 {
      SeedKeepsRest(c, t, a, n - 1);
    }
  }
}
