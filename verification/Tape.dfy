/**
 The per-ticker record and what one trade does to it.

 `Step` is the value-level counterpart of `processTrade`, `SeedStep` that of the
 loop body of `seedVWAPFromTrades`.  The methods of module `Engine`, which keep the
 source's early returns and store updates, are proved to perform exactly these steps.
 Instants are milliseconds; an unset Go `time.Time` is `None`.
 */
module Tape {
  import opened Wrappers

  const MINUTE := 60000

  /** Runtime filters; the last three belong to the sold-off scan. */
  datatype Filters = Filters(
    rangeMin: real, rangeMax: real, volMin: real, volMax: real,
    todayMin: real, todayMax: real, entryMin: int, entryMax: int,
    priceMin: real, priceMax: real,
    dropMin: real, soldRangeMin: real, soldTodayMin: real)

  datatype Clock = Clock(open: int, sel: int, cutoff: int, exit: int)

  datatype Risk = Risk(takeProfit: real, stopLoss: real)

  /** A trade, with the filters in force when it is processed and whether it may act. */
  datatype Tick = Tick(time: int, price: real, size: real, filters: Filters, allow: bool)

  /** Status badges, exit reasons and event types share one vocabulary. */
  datatype Label =
    | Unset | Watching | Selected | Tracking | Long
    | Profit | Stop | TimeExit | Buy | Eleven | System

  datatype Event = Event(kind: Label, symbol: string, time: int)

  datatype Opening = Opening(
    open0930: real, estimated: bool, high: real, low: real, vol: real,
    rangePct: real, prevAvg: real, todayPct: real)

  datatype Market = Market(
    cumPV: real, cumV: real, vwap: real, lastPrice: real, lastTrade: Option<int>,
    prevPrice: real, prevVwap: real, minutes: real)

  datatype Cross = Cross(saw: bool, time: Option<int>, price: real)

  datatype Position = Position(
    held: bool, entryPrice: real, entryTime: Option<int>, entryMinutes: real,
    target: real, stop: real,
    exited: bool, reason: Label, exitPrice: real, exitTime: Option<int>, exitMinutes: real)

  datatype Excursion = Excursion(
    maxPrice: real, maxTime: Option<int>, minPrice: real, minTime: Option<int>)

  datatype Ticker = Ticker(
    symbol: string, opening: Opening, market: Market, cross: Cross,
    position: Position, excursion: Excursion, status: Label)

  const NO_OPENING := Opening(0.0, false, 0.0, 0.0, 0.0, 0.0, 0.0, 0.0)
  const NO_MARKET := Market(0.0, 0.0, 0.0, 0.0, None, 0.0, 0.0, 0.0)
  const NO_CROSS := Cross(false, None, 0.0)
  const FLAT := Position(false, 0.0, None, 0.0, 0.0, 0.0, false, Unset, 0.0, None, 0.0)
  const NO_EXCURSION := Excursion(0.0, None, 0.0, None)

  function NewTicker(symbol: string): Ticker {
    Ticker(symbol, NO_OPENING, NO_MARKET, NO_CROSS, FLAT, NO_EXCURSION, Watching)
  }

  /** No trade has been seen and nothing was bought. */
  predicate Fresh(t: Ticker) {
    t.market == NO_MARKET && t.cross == NO_CROSS && t.position == FLAT && t.excursion == NO_EXCURSION
  }

  predicate Open(t: Ticker) {
    t.position.held && !t.position.exited
  }

  /** The order of the session's instants that the configuration promises. */
  predicate ClockOk(c: Clock) {
    0 < c.open && c.open + MINUTE <= c.sel <= c.cutoff <= c.exit
  }

  predicate RiskOk(r: Risk) {
    r.takeProfit > 0.0 && r.stopLoss > 0.0
  }

  function Minutes(c: Clock, time: int): real {
    (time - c.open) as real / 60000.0
  }

  predicate Accepts(c: Clock, k: Tick) {
    c.open <= k.time <= c.exit + 5 * MINUTE && k.price > 0.0 && k.size > 0.0
  }

  function Advance(c: Clock, m: Market, k: Tick): Market {
    var pv := m.cumPV + k.price * k.size;
    var v := m.cumV + k.size;
    Market(pv, v, if v > 0.0 then pv / v else m.vwap, k.price, Some(k.time),
           m.lastPrice, m.vwap, Minutes(c, k.time))
  }

  function Stretch(x: Excursion, k: Tick): Excursion {
    var up := x.maxPrice == 0.0 || k.price > x.maxPrice;
    var down := x.minPrice == 0.0 || k.price < x.minPrice;
    Excursion(
      if up then k.price else x.maxPrice, if up then Some(k.time) else x.maxTime,
      if down then k.price else x.minPrice, if down then Some(k.time) else x.minTime)
  }

  /** `m` is the market after the trade: its `prev` fields describe the trade before. */
  predicate CrossNow(c: Clock, m: Market, k: Tick) {
    && m.prevPrice > 0.0 && m.prevVwap > 0.0 && m.prevPrice < m.prevVwap && k.price >= m.vwap
    && c.open + MINUTE <= k.time < c.cutoff
  }

  predicate FiltersPass(c: Clock, o: Opening, k: Tick) {
    var f := k.filters;
    && f.entryMin as real <= Minutes(c, k.time) <= f.entryMax as real + 0.999
    && f.rangeMin <= o.rangePct <= f.rangeMax
    && f.volMin <= o.vol <= f.volMax
    && f.todayMin <= o.todayPct <= f.todayMax
    && f.priceMin <= k.price <= f.priceMax
  }

  /** The return of a position entered at `entry` and valued at `price`. */
  function Return(entry: real, price: real): real
    requires entry > 0.0
  {
    (price - entry) / entry
  }

  function Opened(c: Clock, r: Risk, t: Ticker, time: int, price: real): Ticker {
    t.(position := t.position.(
         held := true, entryPrice := price, entryTime := Some(time), entryMinutes := Minutes(c, time),
         target := price * (1.0 + r.takeProfit), stop := price * (1.0 - r.stopLoss)),
       excursion := Excursion(price, Some(time), price, Some(time)),
       status := Long)
  }

  function Closed(c: Clock, t: Ticker, reason: Label, time: int, price: real): Ticker {
    t.(position := t.position.(
         exited := true, reason := reason, exitPrice := price, exitTime := Some(time), exitMinutes := Minutes(c, time)),
       status := reason)
  }

  /** What every accepted trade records, before anything is bought or sold. */
  function Recorded(c: Clock, t: Ticker, k: Tick): Ticker {
    var m := Advance(c, t.market, k);
    var p := t.position;
    t.(market := m,
       excursion := if p.held && p.entryTime.Some? && p.entryTime.value <= k.time
                    then Stretch(t.excursion, k) else t.excursion,
       cross := if !p.held && !p.exited && !t.cross.saw && CrossNow(c, m, k)
                then Cross(true, Some(k.time), k.price) else t.cross)
  }

  /** `u` is the ticker after the trade was recorded. */
  predicate Buys(c: Clock, u: Ticker, k: Tick) {
    && k.allow && !u.position.held && !u.position.exited
    && c.sel <= k.time < c.cutoff
    && FiltersPass(c, u.opening, k)
    && u.market.vwap > 0.0 && k.price >= u.market.vwap
    && u.cross.saw
  }

  /** The reason for which the trade closes the position, `Unset` if it does not. */
  function ExitSignal(p: Position, k: Tick): Label {
    if !k.allow || !p.held || p.exited then Unset
    else if k.price >= p.target && p.target > 0.0 then Profit
    else if k.price <= p.stop && p.stop > 0.0 then Stop
    else Unset
  }

  /** Buys, sells or does nothing; `u` is the ticker after the trade was recorded. */
  function Acted(c: Clock, r: Risk, u: Ticker, k: Tick): Ticker {
    if Buys(c, u, k) then Opened(c, r, u, k.time, k.price)
    else
      var reason := ExitSignal(u.position, k);
      if reason != Unset then Closed(c, u, reason, k.time, k.price) else u
  }

  function Signals(c: Clock, u: Ticker, k: Tick): seq<Event> {
    if Buys(c, u, k) then [Event(Buy, u.symbol, k.time)]
    else
      var reason := ExitSignal(u.position, k);
      if reason != Unset then [Event(reason, u.symbol, k.time)] else []
  }

  function Step(c: Clock, r: Risk, t: Ticker, k: Tick): Ticker {
    if Accepts(c, k) then Acted(c, r, Recorded(c, t, k), k) else t
  }

  /** The BUY, PROFIT or STOP event the trade gives rise to. */
  function Emits(c: Clock, t: Ticker, k: Tick): seq<Event> {
    if Accepts(c, k) then Signals(c, Recorded(c, t, k), k) else []
  }

  /** The ticker after the first `n` trades of the tape. */
  function Run(c: Clock, r: Risk, t: Ticker, a: seq<Tick>, n: nat): Ticker
    requires n <= |a|
  {
    if n == 0 then t else Step(c, r, Run(c, r, t, a, n - 1), a[n - 1])
  }

  function Emitted(c: Clock, r: Risk, t: Ticker, a: seq<Tick>, n: nat): seq<Event>
    requires n <= |a|
  {
    if n == 0 then []
    else Emitted(c, r, t, a, n - 1) + Emits(c, Run(c, r, t, a, n - 1), a[n - 1])
  }

  lemma RunUnfolds(c: Clock, r: Risk, t: Ticker, a: seq<Tick>, n: nat)
    requires n <= |a|
    ensures Run(c, r, t, a, n) == if n == 0 then t else Step(c, r, Run(c, r, t, a, n - 1), a[n - 1])
    ensures Emitted(c, r, t, a, n) ==
      if n == 0 then [] else Emitted(c, r, t, a, n - 1) + Emits(c, Run(c, r, t, a, n - 1), a[n - 1])
  {
  }

  /** The price at which the forced close leaves a position. */
  function ClosingPrice(t: Ticker): real {
    if t.market.lastPrice <= 0.0 then t.position.entryPrice else t.market.lastPrice
  }

  /** The forced close: an open position leaves at its last price. */
  function TimeExited(c: Clock, t: Ticker, time: int): Ticker {
    if Open(t) then Closed(c, t, TimeExit, time, ClosingPrice(t)) else t
  }

  predicate SeedAccepts(k: Tick) {
    k.price > 0.0 && k.size > 0.0 && k.time != 0
  }

  function SeedStep(c: Clock, t: Ticker, k: Tick): Ticker {
    if !SeedAccepts(k) then t
    else
      var m := t.market;
      var pv := m.cumPV + k.price * k.size;
      var v := m.cumV + k.size;
      var vwap := if v > 0.0 then pv / v else m.vwap;
      var cross := !t.cross.saw && c.open + MINUTE <= k.time
                   && m.lastPrice > 0.0 && m.vwap > 0.0 && m.lastPrice < m.vwap && k.price >= vwap;
      t.(market := m.(cumPV := pv, cumV := v, vwap := vwap, lastPrice := k.price, lastTrade := Some(k.time)),
         cross := if cross then Cross(true, Some(k.time), k.price) else t.cross)
  }

  function SeedRun(c: Clock, t: Ticker, a: seq<Tick>, n: nat): Ticker
    requires n <= |a|
  {
    if n == 0 then t else SeedStep(c, SeedRun(c, t, a, n - 1), a[n - 1])
  }

  /** A completed seed also primes the `prev` fields for the first live trade. */
  function Seeded(c: Clock, t: Ticker, a: seq<Tick>): Ticker {
    var u := SeedRun(c, t, a, |a|);
    if u.market.cumV > 0.0
    then u.(market := u.market.(prevPrice := u.market.lastPrice, prevVwap := u.market.vwap))
    else u
  }
}
