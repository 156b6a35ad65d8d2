/**
 The historic report: one row for each position taken, one line for each candidate
 that never entered, and the summary figures over the rows.
 */
module Report {
  import opened Wrappers
  import opened Tape
  import opened Reals
  import opened Sorting
  import Fanout
  import ReplayLaws
  import SoldOff

  const SHARES := 1000.0

  datatype Row = Row(
    symbol: string, entryPrice: real, entryTime: Option<int>, entryMinutes: real, target: real, stop: real,
    exitPrice: real, exitTime: Option<int>, exitMinutes: real, reason: Label, realPct: real, realAmt: real,
    holdPrice: real, holdPct: real, holdAmt: real,
    mfePrice: real, mfeTime: Option<int>, mfePct: real, mfeAmt: real,
    maePrice: real, maeTime: Option<int>, maePct: real, maeAmt: real)

  datatype Why = NoCross | TodayFilterFailed | PriceFilterFailed | NeverAligned

  datatype Missed = Missed(
    symbol: string, vol: real, rangePct: real, todayPct: real, saw: bool, crossTime: Option<int>, crossPrice: real,
    why: Why)

  datatype Summary = Summary(
    candidates: nat, trades: nat, noEntry: nat, wins: nat, losses: nat, timeExits: nat,
    winRate: real, netPnl: real, notional: real, netReturn: real, avgReturn: real,
    avgWin: real, avgLoss: real, profitFactor: real, best: real, worst: real)

  datatype Report = Report(summary: Summary, trades: seq<Row>, noEntries: seq<Missed>, soldOff: seq<SoldOff.Row>)

  predicate Taken(t: Ticker) {
    t.position.held && t.position.entryPrice > 0.0 && t.position.entryTime.Some?
  }

  /** A position that never recorded an exit or an extreme falls back on the last price or the entry. */
  function RowOf(t: Ticker, end: int): Row
    requires Taken(t)
  {
    var p, x := t.position, t.excursion;
    var entry, last := p.entryPrice, t.market.lastPrice;
    var exit := if p.exitPrice <= 0.0 then last else p.exitPrice;
    var mfe := if x.maxPrice <= 0.0 then entry else x.maxPrice;
    var mae := if x.minPrice <= 0.0 then entry else x.minPrice;
    Row(t.symbol, entry, p.entryTime, p.entryMinutes, p.target, p.stop,
        exit, if p.exitPrice <= 0.0 then Some(end) else p.exitTime, p.exitMinutes, p.reason,
        Return(entry, exit), (exit - entry) * SHARES,
        last, Return(entry, last), (last - entry) * SHARES,
        mfe, if x.maxPrice <= 0.0 then p.entryTime else x.maxTime, Return(entry, mfe), (mfe - entry) * SHARES,
        mae, if x.minPrice <= 0.0 then p.entryTime else x.minTime, Return(entry, mae), (mae - entry) * SHARES)
  }

  function MissedOf(t: Ticker, f: Filters): Missed {
    Missed(
      t.symbol, t.opening.vol, t.opening.rangePct, t.opening.todayPct, t.cross.saw, t.cross.time, t.cross.price,
      if !t.cross.saw then NoCross
      else if t.opening.todayPct < f.todayMin || t.opening.todayPct > f.todayMax then TodayFilterFailed
      else if t.cross.price > 0.0 && (t.cross.price < f.priceMin || t.cross.price > f.priceMax) then PriceFilterFailed
      else NeverAligned)
  }

  // ---- What rows and entries say, field by field ----

  /** A position was recorded in full. */
  ghost predicate HasPosition(p: Position) {
    p.held && p.entryPrice > 0.0 && p.entryTime != None
  }

  /** Percentage and amount both describe the way from the entry to the price, for a thousand shares. */
  ghost predicate Gains(entry: real, price: real, pct: real, amount: real) {
    pct * entry == price - entry && amount == 1000.0 * (price - entry)
  }

  /** The extreme that was recorded, or the entry if none was. */
  ghost predicate ExtremeTells(p: Position, price: real, time: Option<int>, rowPrice: real, rowTime: Option<int>) {
    && (price > 0.0 ==> rowPrice == price && rowTime == time)
    && (price <= 0.0 ==> rowPrice == p.entryPrice && rowTime == p.entryTime)
  }

  /** The row repeats what the ticker recorded and draws the gains from it. */
  ghost predicate RowTells(t: Ticker, end: int, row: Row) {
    var p, x := t.position, t.excursion;
    && row.symbol == t.symbol && row.reason == p.reason
    && row.entryPrice == p.entryPrice && row.entryTime == p.entryTime && row.entryMinutes == p.entryMinutes
    && row.target == p.target && row.stop == p.stop && row.exitMinutes == p.exitMinutes
    && (p.exitPrice > 0.0 ==> row.exitPrice == p.exitPrice && row.exitTime == p.exitTime)
    && (p.exitPrice <= 0.0 ==> row.exitPrice == t.market.lastPrice && row.exitTime == Some(end))
    && row.holdPrice == t.market.lastPrice
    && ExtremeTells(p, x.maxPrice, x.maxTime, row.mfePrice, row.mfeTime)
    && ExtremeTells(p, x.minPrice, x.minTime, row.maePrice, row.maeTime)
    && Gains(p.entryPrice, row.exitPrice, row.realPct, row.realAmt)
    && Gains(p.entryPrice, row.holdPrice, row.holdPct, row.holdAmt)
    && Gains(p.entryPrice, row.mfePrice, row.mfePct, row.mfeAmt)
    && Gains(p.entryPrice, row.maePrice, row.maePct, row.maeAmt)
  }

  /** The entry repeats the figures, and its reason is the first of the tests that the ticker failed. */
  ghost predicate MissTells(t: Ticker, f: Filters, x: Missed) {
    var o, k := t.opening, t.cross;
    var today := f.todayMin <= o.todayPct <= f.todayMax;
    var price := k.price <= 0.0 || f.priceMin <= k.price <= f.priceMax;
    && x.symbol == t.symbol && x.vol == o.vol && x.rangePct == o.rangePct && x.todayPct == o.todayPct
    && x.saw == k.saw && x.crossTime == k.time && x.crossPrice == k.price
    && (x.why == NoCross <==> !k.saw)
    && (x.why == TodayFilterFailed <==> k.saw && !today)
    && (x.why == PriceFilterFailed <==> k.saw && today && !price)
    && (x.why == NeverAligned <==> k.saw && today && price)
  }

  lemma GainsUnique(entry: real, price: real, pct: real, amount: real)
    requires entry > 0.0
    ensures Gains(entry, price, pct, amount) <==>
      pct == Return(entry, price) && amount == (price - entry) * SHARES
  {
    QuotientIs(pct, price - entry, entry);
  }

  /** Those fields determine the row, and it is the one the code builds. */
  lemma RowIs(t: Ticker, end: int, row: Row)
    ensures Taken(t) <==> HasPosition(t.position)
    ensures Taken(t) ==> (RowTells(t, end, row) <==> row == RowOf(t, end))
  {
    if Taken(t) {
      GainsUnique(t.position.entryPrice, row.exitPrice, row.realPct, row.realAmt);
      GainsUnique(t.position.entryPrice, row.holdPrice, row.holdPct, row.holdAmt);
      GainsUnique(t.position.entryPrice, row.mfePrice, row.mfePct, row.mfeAmt);
      GainsUnique(t.position.entryPrice, row.maePrice, row.maePct, row.maeAmt);
      hide Gains, Return;
    }
  }

  lemma MissIs(t: Ticker, f: Filters, x: Missed)
    ensures Taken(t) <==> HasPosition(t.position)
    ensures MissTells(t, f, x) <==> x == MissedOf(t, f)
  {
  }

  function Rows(states: seq<Ticker>, n: nat, end: int): seq<Row>
    requires n <= |states|
  {
    if n == 0 then []
    else
      var t := states[n - 1];
      Rows(states, n - 1, end) + if Taken(t) then [RowOf(t, end)] else []
  }

  function Misses(states: seq<Ticker>, n: nat, f: Filters): seq<Missed>
    requires n <= |states|
  {
    if n == 0 then []
    else
      var t := states[n - 1];
      Misses(states, n - 1, f) + if Taken(t) then [] else [MissedOf(t, f)]
  }

  // ---- Figures over the rows ----

  function SumOf(rows: seq<Row>, amount: Row -> real): real {
    if rows == [] then 0.0 else SumOf(rows[..|rows| - 1], amount) + amount(rows[|rows| - 1])
  }

  function Count(rows: seq<Row>, which: Row -> bool): nat {
    if rows == [] then 0 else Count(rows[..|rows| - 1], which) + if which(rows[|rows| - 1]) then 1 else 0
  }

  function Best(rows: seq<Row>): real {
    if rows == [] then 0.0
    else if |rows| == 1 then rows[0].realPct
    else
      var b, x := Best(rows[..|rows| - 1]), rows[|rows| - 1].realPct;
      if x > b then x else b
  }

  function Worst(rows: seq<Row>): real {
    if rows == [] then 0.0
    else if |rows| == 1 then rows[0].realPct
    else
      var b, x := Worst(rows[..|rows| - 1]), rows[|rows| - 1].realPct;
      if x < b then x else b
  }

  predicate Win(r: Row) { r.realAmt >= 0.0 }
  predicate Loss(r: Row) { r.realAmt < 0.0 }
  predicate TimedOut(r: Row) { r.reason == TimeExit }
  function Amount(r: Row): real { r.realAmt }
  function Notional(r: Row): real { r.entryPrice * SHARES }
  function RealReturn(r: Row): real { r.realPct }
  function WinAmount(r: Row): real { if Win(r) then r.realAmt else 0.0 }
  function LossAmount(r: Row): real { if Loss(r) then r.realAmt else 0.0 }
  function WinReturn(r: Row): real { if Win(r) then r.realPct else 0.0 }
  function LossReturn(r: Row): real { if Loss(r) then r.realPct else 0.0 }
  function Gain(r: Row): real { r.exitPrice - r.entryPrice }
  function Paid(r: Row): real { r.entryPrice }
  function Rise(r: Row): real { if r.exitPrice >= r.entryPrice then r.exitPrice - r.entryPrice else 0.0 }
  function Fall(r: Row): real { if r.exitPrice < r.entryPrice then r.entryPrice - r.exitPrice else 0.0 }

  function Ratio(x: real, n: nat): real { if n > 0 then x / n as real else 0.0 }

  function SummaryOf(rows: seq<Row>, missed: nat): Summary {
    var wins, losses := Count(rows, Win), Count(rows, Loss);
    var won, lost := SumOf(rows, WinAmount), SumOf(rows, LossAmount);
    var notional, pnl := SumOf(rows, Notional), SumOf(rows, Amount);
    Summary(|rows| + missed, |rows|, missed, wins, losses, Count(rows, TimedOut),
            Ratio(wins as real, |rows|), pnl, notional, if notional > 0.0 then pnl / notional else 0.0,
            Ratio(SumOf(rows, RealReturn), |rows|),
            Ratio(SumOf(rows, WinReturn), wins), Ratio(SumOf(rows, LossReturn), losses),
            if lost < 0.0 then won / (-lost) else if won > 0.0 && lost == 0.0 then 999.0 else 0.0,
            Best(rows), Worst(rows))
  }

  // ---- Laws of the figures ----

  /** A row whose percentage and amount describe the same trade. */
  ghost predicate Coherent(r: Row) {
    && r.entryPrice > 0.0
    && r.realPct == Return(r.entryPrice, r.exitPrice)
    && r.realAmt == (r.exitPrice - r.entryPrice) * SHARES
  }

  ghost predicate AllCoherent(rows: seq<Row>) {
    forall r | r in rows :: Coherent(r)
  }

  lemma CoherentRow(r: Row)
    requires Coherent(r)
    ensures Notional(r) > 0.0
    ensures r.realAmt == r.realPct * Notional(r)
    ensures Win(r) <==> r.realPct >= 0.0
  {
    QuotientOrder(r.exitPrice - r.entryPrice, r.entryPrice, 0.0);
    assert r.realPct * r.entryPrice == r.exitPrice - r.entryPrice;
    assert r.realPct * (r.entryPrice * SHARES) == r.realPct * r.entryPrice * SHARES;
  }

  lemma {:induction false} ExtremesBound(rows: seq<Row>, r: Row)
    requires r in rows
    ensures Worst(rows) <= r.realPct <= Best(rows)
  {
    if |rows| > 1 && r in rows[..|rows| - 1] {
      ExtremesBound(rows[..|rows| - 1], r);
    }
  }

  lemma {:induction false} ExtremesTaken(rows: seq<Row>)
    requires rows != []
    ensures (exists r | r in rows :: r.realPct == Best(rows)) && (exists r | r in rows :: r.realPct == Worst(rows))
  {
    if |rows| > 1 {
      ExtremesTaken(rows[..|rows| - 1]);
      assert rows[|rows| - 1] in rows;
    } else {
      assert rows[0] in rows;
    }
  }

  lemma {:induction false} WeightedBounds(rows: seq<Row>, lo: real, hi: real)
    requires AllCoherent(rows) && forall r | r in rows :: lo <= r.realPct <= hi
    ensures Weighs(lo, SumOf(rows, Amount), hi, SumOf(rows, Notional))
    ensures rows != [] ==> SumOf(rows, Notional) > 0.0
    ensures rows == [] ==> SumOf(rows, Notional) == 0.0
  {
    if rows != [] {
      var front, r := rows[..|rows| - 1], rows[|rows| - 1];
      assert r in rows;
      CoherentRow(r);
      hide Weighs, Notional;
      WeightedBounds(front, lo, hi);
      WeightedStep(lo, r.realPct, hi, Notional(r), SumOf(front, Notional), SumOf(front, Amount),
                   SumOf(rows, Notional), SumOf(rows, Amount));
    }
  }

  lemma {:induction false} PlainBounds(rows: seq<Row>, lo: real, hi: real)
    requires forall r | r in rows :: lo <= r.realPct <= hi
    ensures Weighs(lo, SumOf(rows, RealReturn), hi, |rows| as real)
  {
    if rows != [] {
      var front, r := rows[..|rows| - 1], rows[|rows| - 1];
      assert r in rows;
      hide Weighs;
      PlainBounds(front, lo, hi);
      WeightedStep(lo, r.realPct, hi, 1.0, |front| as real, SumOf(front, RealReturn),
                   |rows| as real, SumOf(rows, RealReturn));
    }
  }

  lemma BoundedByExtremes(rows: seq<Row>)
    ensures forall r | r in rows :: Worst(rows) <= r.realPct <= Best(rows)
  {
    forall r | r in rows ensures Worst(rows) <= r.realPct <= Best(rows) {
      ExtremesBound(rows, r);
    }
  }

  /** The return on the notional, an entry-weighted mean, lies between the worst and the best return. */
  lemma NetReturnInRange(rows: seq<Row>, missed: nat)
    requires AllCoherent(rows) && rows != []
    ensures SummaryOf(rows, missed).worst <= SummaryOf(rows, missed).netReturn <= SummaryOf(rows, missed).best
  {
    BoundedByExtremes(rows);
    WeightedBounds(rows, Worst(rows), Best(rows));
    MeanBounds(Worst(rows), SumOf(rows, Amount), Best(rows), SumOf(rows, Notional));
  }

  /** So does the plain average. */
  lemma AverageReturnInRange(rows: seq<Row>, missed: nat)
    requires rows != []
    ensures SummaryOf(rows, missed).worst <= SummaryOf(rows, missed).avgReturn <= SummaryOf(rows, missed).best
  {
    BoundedByExtremes(rows);
    PlainBounds(rows, Worst(rows), Best(rows));
    MeanBounds(Worst(rows), SumOf(rows, RealReturn), Best(rows), |rows| as real);
  }

  lemma {:induction false} WinsAndLosses(rows: seq<Row>)
    ensures Count(rows, Win) + Count(rows, Loss) == |rows|
    ensures SumOf(rows, WinAmount) + SumOf(rows, LossAmount) == SumOf(rows, Amount)
    ensures SumOf(rows, WinReturn) + SumOf(rows, LossReturn) == SumOf(rows, RealReturn)
    ensures SumOf(rows, WinAmount) >= 0.0
    ensures Count(rows, Win) == 0 ==> SumOf(rows, WinReturn) == 0.0 && SumOf(rows, WinAmount) == 0.0
    ensures Count(rows, Loss) == 0 ==> SumOf(rows, LossReturn) == 0.0 && SumOf(rows, LossAmount) == 0.0
    ensures Count(rows, Loss) > 0 ==> SumOf(rows, LossAmount) < 0.0
  {
    if rows != [] {
      WinsAndLosses(rows[..|rows| - 1]);
    }
  }

  /** A mean scaled by its share of the whole is its part of the overall mean. */
  lemma ShareOfMean(x: real, m: nat, n: nat)
    requires 0 < n && (m == 0 ==> x == 0.0)
    ensures m as real / n as real * Ratio(x, m) == x / n as real
  {
    var w, q := m as real / n as real, Ratio(x, m);
    assert w * n as real == m as real;
    assert q * m as real == x;
    assert w * q * n as real == q * (w * n as real);
    QuotientUnique(w * q, x, n as real);
  }

  lemma MixOfMeans(x: real, m: nat, y: real, k: nat)
    requires m + k > 0 && (m == 0 ==> x == 0.0) && (k == 0 ==> y == 0.0)
    ensures Ratio(x + y, m + k)
         == Ratio(m as real, m + k) * Ratio(x, m) + (1.0 - Ratio(m as real, m + k)) * Ratio(y, k)
  {
    var n := m + k;
    ShareOfMean(x, m, n);
    ShareOfMean(y, k, n);
    QuotientUnique(1.0 - m as real / n as real, k as real, n as real);
    QuotientUnique(x / n as real + y / n as real, x + y, n as real);
  }

  function Won(r: Row): real { if r.exitPrice >= r.entryPrice then r.realPct else 0.0 }
  function Lost(r: Row): real { if r.exitPrice < r.entryPrice then r.realPct else 0.0 }

  lemma {:induction false} ReturnsOfEach(rows: seq<Row>)
    requires AllCoherent(rows)
    ensures SumOf(rows, WinReturn) == SumOf(rows, Won) && SumOf(rows, LossReturn) == SumOf(rows, Lost)
  {
    if rows != [] {
      assert rows[|rows| - 1] in rows;
      ReturnsOfEach(rows[..|rows| - 1]);
    }
  }

  /** The sums in money are a thousand times the sums of price differences. */
  lemma {:induction false} ThousandShares(rows: seq<Row>)
    requires AllCoherent(rows)
    ensures SumOf(rows, Amount) == 1000.0 * SumOf(rows, Gain)
    ensures SumOf(rows, Notional) == 1000.0 * SumOf(rows, Paid)
    ensures SumOf(rows, WinAmount) == 1000.0 * SumOf(rows, Rise)
    ensures SumOf(rows, LossAmount) == -1000.0 * SumOf(rows, Fall)
  {
    if rows != [] {
      assert rows[|rows| - 1] in rows;
      ThousandShares(rows[..|rows| - 1]);
    }
  }

  /** Counting is measuring the set of the places counted. */
  lemma {:induction false} CountIsSize(rows: seq<Row>, which: Row -> bool, places: set<int>)
    requires forall i :: i in places <==> 0 <= i < |rows| && which(rows[i])
    ensures Count(rows, which) == |places|
  {
    if rows != [] {
      CountIsSize(rows[..|rows| - 1], which, places - {|rows| - 1});
    } else {
      assert forall i :: i !in places;
      assert places == {};
    }
  }

  /** Wins, losses and timed exits, by what the rows themselves show. */
  ghost predicate CountsTell(s: Summary, rows: seq<Row>) {
    && s.wins == |set i | 0 <= i < |rows| && rows[i].exitPrice >= rows[i].entryPrice|
    && s.losses == |set i | 0 <= i < |rows| && rows[i].exitPrice < rows[i].entryPrice|
    && s.timeExits == |set i | 0 <= i < |rows| && rows[i].reason == TimeExit|
  }

  lemma CountsAre(rows: seq<Row>, missed: nat)
    requires AllCoherent(rows)
    ensures CountsTell(SummaryOf(rows, missed), rows)
  {
    forall i | 0 <= i < |rows| ensures Win(rows[i]) <==> rows[i].exitPrice >= rows[i].entryPrice {
      assert rows[i] in rows;
      assert Coherent(rows[i]);
    }
    hide AllCoherent, Coherent, Count;
    CountIsSize(rows, Win, set i | 0 <= i < |rows| && rows[i].exitPrice >= rows[i].entryPrice);
    CountIsSize(rows, Loss, set i | 0 <= i < |rows| && rows[i].exitPrice < rows[i].entryPrice);
    CountIsSize(rows, TimedOut, set i | 0 <= i < |rows| && rows[i].reason == TimeExit);
  }

  /** The amounts, for a thousand shares of each. */
  ghost predicate AmountsTell(s: Summary, rows: seq<Row>) {
    && s.netPnl == 1000.0 * SumOf(rows, Gain)
    && s.notional == 1000.0 * SumOf(rows, Paid)
  }

  /** The ratios, multiplied out. */
  ghost predicate RatiosTell(s: Summary, rows: seq<Row>) {
    && s.netReturn * s.notional == s.netPnl
    && s.winRate * s.trades as real == s.wins as real
    && (s.losses > 0 ==> s.profitFactor * SumOf(rows, Fall) == SumOf(rows, Rise))
  }

  /** The averages, multiplied out. */
  ghost predicate AveragesTell(s: Summary, rows: seq<Row>) {
    && IsMean(s.avgWin, s.wins, SumOf(rows, Won))
    && IsMean(s.avgLoss, s.losses, SumOf(rows, Lost))
    && IsMean(s.avgReturn, s.trades, SumOf(rows, Won) + SumOf(rows, Lost))
  }

  ghost predicate IsMean(mean: real, n: nat, sum: real) { mean * n as real == sum }

  lemma RatioIsMean(x: real, n: nat)
    requires n == 0 ==> x == 0.0
    ensures IsMean(Ratio(x, n), n, x)
  {
    QuotientMeans(x, n as real, Ratio(x, n));
  }

  lemma AveragesAre(rows: seq<Row>, missed: nat)
    requires AllCoherent(rows)
    ensures AveragesTell(SummaryOf(rows, missed), rows)
  {
    ReturnsOfEach(rows);
    WinsAndLosses(rows);
    hide SumOf, Count, AllCoherent, Best, Worst, Ratio, IsMean;
    RatioIsMean(SumOf(rows, WinReturn), Count(rows, Win));
    RatioIsMean(SumOf(rows, LossReturn), Count(rows, Loss));
    RatioIsMean(SumOf(rows, RealReturn), |rows|);
  }

  /** A thousandfold quotient of falls is the quotient itself. */
  lemma FactorMeans(rise: real, fall: real, won: real, lost: real, factor: real)
    requires lost > 0.0 && factor == won / lost && won == 1000.0 * rise && lost == 1000.0 * fall
    ensures factor * fall == rise
  {
    QuotientOrder(won, lost, 0.0);
    assert factor * (1000.0 * fall) == 1000.0 * (factor * fall);
  }

  lemma FactorIs(rows: seq<Row>, missed: nat)
    requires AllCoherent(rows) && Count(rows, Loss) > 0
    ensures SummaryOf(rows, missed).profitFactor * SumOf(rows, Fall) == SumOf(rows, Rise)
  {
    hide *;
    ThousandShares(rows);
    FactorFormula(rows, missed);
    FactorMeans(SumOf(rows, Rise), SumOf(rows, Fall), SumOf(rows, WinAmount), -SumOf(rows, LossAmount),
                SummaryOf(rows, missed).profitFactor);
  }

  lemma FactorFormula(rows: seq<Row>, missed: nat)
    requires Count(rows, Loss) > 0
    ensures SumOf(rows, LossAmount) < 0.0
    ensures SummaryOf(rows, missed).profitFactor == SumOf(rows, WinAmount) / (-SumOf(rows, LossAmount))
  {
    WinsAndLosses(rows);
  }

  lemma RatiosAre(rows: seq<Row>, missed: nat)
    requires AllCoherent(rows)
    ensures RatiosTell(SummaryOf(rows, missed), rows)
  {
    NotionalPositive(rows);
    if Count(rows, Loss) > 0 {
      FactorIs(rows, missed);
    }
    hide SumOf, Count, AllCoherent, Best, Worst;
    var s := SummaryOf(rows, missed);
    QuotientMeans(s.netPnl, s.notional, s.netReturn);
    QuotientMeans(s.wins as real, |rows| as real, s.winRate);
  }

  lemma QuotientMeans(x: real, y: real, q: real)
    requires y >= 0.0 && (y == 0.0 ==> x == 0.0) && q == if y > 0.0 then x / y else 0.0
    ensures q * y == x
  {
    if y > 0.0 {
      QuotientOrder(x, y, q);
    }
  }

  lemma NotionalPositive(rows: seq<Row>)
    requires AllCoherent(rows)
    ensures rows != [] ==> SumOf(rows, Notional) > 0.0
    ensures rows == [] ==> SumOf(rows, Notional) == 0.0 && SumOf(rows, Amount) == 0.0 && Count(rows, Win) == 0
  {
    BoundedByExtremes(rows);
    WeightedBounds(rows, Worst(rows), Best(rows));
  }

  /** The average return splits into its winning and losing parts. */
  lemma AverageSplits(rows: seq<Row>, missed: nat)
    requires rows != []
    ensures var s := SummaryOf(rows, missed);
      s.avgReturn == s.winRate * s.avgWin + (1.0 - s.winRate) * s.avgLoss
  {
    hide Ratio, SumOf, Count, Best, Worst;
    WinsAndLosses(rows);
    MixOfMeans(SumOf(rows, WinReturn), Count(rows, Win), SumOf(rows, LossReturn), Count(rows, Loss));
  }

  /** The profit factor is at least one exactly when the net result is not a loss; 999 stands for no loss at all. */
  lemma ProfitFactorSign(rows: seq<Row>, missed: nat)
    ensures var s := SummaryOf(rows, missed);
      && (s.losses > 0 ==> (s.profitFactor >= 1.0 <==> s.netPnl >= 0.0))
      && (s.losses == 0 ==> s.profitFactor == if s.netPnl > 0.0 then 999.0 else 0.0)
  {
    WinsAndLosses(rows);
    if Count(rows, Loss) > 0 {
      QuotientOrder(SumOf(rows, WinAmount), -SumOf(rows, LossAmount), 1.0);
    }
  }

  /** Every trade is a win or a loss, and the net result is the shares times the summed gains. */
  lemma SummaryConserves(rows: seq<Row>, missed: nat)
    requires AllCoherent(rows)
    ensures var s := SummaryOf(rows, missed);
      && s.trades == |rows| && s.wins + s.losses == s.trades && s.trades + s.noEntry == s.candidates
      && AmountsTell(s, rows)
  {
    WinsAndLosses(rows);
    ThousandShares(rows);
  }

  /** How the figures of a summary hang together and what they say about the rows. */
  ghost predicate Agrees(s: Summary, rows: seq<Row>) {
    && s.trades == |rows| && s.wins + s.losses == s.trades && s.trades + s.noEntry == s.candidates
    && CountsTell(s, rows) && AmountsTell(s, rows) && RatiosTell(s, rows) && AveragesTell(s, rows)
    && (rows != [] ==>
          && s.worst <= s.netReturn <= s.best
          && s.worst <= s.avgReturn <= s.best
          && s.avgReturn == s.winRate * s.avgWin + (1.0 - s.winRate) * s.avgLoss)
    && (s.losses > 0 ==> (s.profitFactor >= 1.0 <==> s.netPnl >= 0.0))
    && (s.losses == 0 ==> s.profitFactor == if s.netPnl > 0.0 then 999.0 else 0.0)
  }

  lemma SummaryAgrees(rows: seq<Row>, missed: nat)
    requires AllCoherent(rows)
    ensures Agrees(SummaryOf(rows, missed), rows)
  {
    hide SummaryOf, SumOf, CountsTell, AmountsTell, RatiosTell, AveragesTell;
    SummaryConserves(rows, missed);
    CountsAre(rows, missed);
    RatiosAre(rows, missed);
    AveragesAre(rows, missed);
    ProfitFactorSign(rows, missed);
    if rows != [] {
      NetReturnInRange(rows, missed);
      AverageReturnInRange(rows, missed);
      AverageSplits(rows, missed);
    }
  }

  // ---- Order does not matter ----

  lemma {:induction false} SumAppend(a: seq<Row>, b: seq<Row>, amount: Row -> real)
    ensures SumOf(a + b, amount) == SumOf(a, amount) + SumOf(b, amount)
  {
    if b == [] {
      assert a + b == a;
    } else {
      SumAppend(a, b[..|b| - 1], amount);
      assert (a + b)[..|a + b| - 1] == a + b[..|b| - 1];
    }
  }

  lemma SumAround(x: seq<Row>, r: Row, y: seq<Row>, amount: Row -> real)
    ensures SumOf(x + [r] + y, amount) == SumOf(x + y, amount) + amount(r)
  {
    SumAppend(x + [r], y, amount);
    SumAppend(x, y, amount);
    assert (x + [r])[..|x|] == x;
  }

  lemma {:induction false} SumPermutes(a: seq<Row>, b: seq<Row>, amount: Row -> real)
    requires multiset(a) == multiset(b)
    ensures SumOf(a, amount) == SumOf(b, amount)
  {
    if a == [] {
      assert |b| == |multiset(b)| == 0;
    } else {
      var front, last := a[..|a| - 1], a[|a| - 1];
      assert a == front + [last];
      var x, y := Fanout.OccursIn(last, b);
      Fanout.DropSame(front, x, last, y);
      SumPermutes(front, x + y, amount);
      SumAround(x, last, y, amount);
    }
  }

  /** One for each row that counts. */
  function Flag(which: Row -> bool): Row -> real {
    (r: Row) => if which(r) then 1.0 else 0.0
  }

  lemma {:induction false} CountIsSum(rows: seq<Row>, which: Row -> bool)
    ensures Count(rows, which) as real == SumOf(rows, Flag(which))
  {
    if rows != [] {
      CountIsSum(rows[..|rows| - 1], which);
    }
  }

  lemma CountPermutes(a: seq<Row>, b: seq<Row>, which: Row -> bool)
    requires multiset(a) == multiset(b)
    ensures Count(a, which) == Count(b, which)
  {
    CountIsSum(a, which);
    CountIsSum(b, which);
    SumPermutes(a, b, Flag(which));
  }

  lemma ExtremesPermute(a: seq<Row>, b: seq<Row>)
    requires multiset(a) == multiset(b) && |a| == |b|
    ensures Best(a) == Best(b) && Worst(a) == Worst(b)
  {
    if a != [] {
      forall r ensures r in a <==> r in b {
        assert r in a <==> r in multiset(a);
        assert r in b <==> r in multiset(b);
      }
      ExtremesTaken(a);
      ExtremesTaken(b);
      BoundedByExtremes(a);
      BoundedByExtremes(b);
    }
  }

  /** The order of the rows does not enter the summary. */
  lemma SummaryPermutes(a: seq<Row>, b: seq<Row>, missed: nat)
    requires multiset(a) == multiset(b) && |a| == |b|
    ensures SummaryOf(a, missed) == SummaryOf(b, missed)
  {
    hide SumOf, Count, Best, Worst, Ratio;
    CountPermutes(a, b, Win);
    CountPermutes(a, b, Loss);
    CountPermutes(a, b, TimedOut);
    SumPermutes(a, b, Amount);
    SumPermutes(a, b, Notional);
    SumPermutes(a, b, RealReturn);
    SumPermutes(a, b, WinAmount);
    SumPermutes(a, b, LossAmount);
    SumPermutes(a, b, WinReturn);
    SumPermutes(a, b, LossReturn);
    ExtremesPermute(a, b);
  }

  // ---- One entry a ticker ----

  function SymbolOf(row: Row): string { row.symbol }

  function MissedSymbol(x: Missed): string { x.symbol }

  ghost predicate DistinctSymbols(states: seq<Ticker>) {
    forall i, j | 0 <= i < j < |states| :: states[i].symbol != states[j].symbol
  }

  lemma {:induction false} RowsOnce(states: seq<Ticker>, n: nat, end: int)
    requires n <= |states| && DistinctSymbols(states)
    ensures Fanout.DistinctKeys(Rows(states, n, end), SymbolOf)
  {
    if n > 0 {
      RowsOnce(states, n - 1, end);
      var front := Rows(states, n - 1, end);
      forall i | 0 <= i < |front| ensures front[i].symbol != states[n - 1].symbol {
        RowsAre(states, n - 1, end, front[i]);
      }
    }
  }

  /** The misses are those of the tickers without a position. */
  lemma {:induction false} MissesAre(states: seq<Ticker>, n: nat, f: Filters, x: Missed)
    requires n <= |states|
    ensures x in Misses(states, n, f) <==>
      exists i | 0 <= i < n :: !Taken(states[i]) && x == MissedOf(states[i], f)
  {
    if n > 0 {
      MissesAre(states, n - 1, f, x);
    }
  }

  lemma {:induction false} MissesOnce(states: seq<Ticker>, n: nat, f: Filters)
    requires n <= |states| && DistinctSymbols(states)
    ensures Fanout.DistinctKeys(Misses(states, n, f), MissedSymbol)
  {
    if n > 0 {
      MissesOnce(states, n - 1, f);
      var front := Misses(states, n - 1, f);
      forall i | 0 <= i < |front| ensures front[i].symbol != states[n - 1].symbol {
        MissesAre(states, n - 1, f, front[i]);
      }
    }
  }

  /** The figures the code sums over the tickers agree with the sorted list that it returns. */
  lemma ReportAgrees(states: seq<Ticker>, end: int, sorted: seq<Row>, missed: nat)
    requires var rows := Rows(states, |states|, end); multiset(sorted) == multiset(rows) && |sorted| == |rows|
    ensures Agrees(SummaryOf(Rows(states, |states|, end), missed), sorted)
  {
    var rows := Rows(states, |states|, end);
    RowsAreCoherent(states, |states|, end);
    SummaryPermutes(rows, sorted, missed);
    forall row | row in sorted ensures Coherent(row) {
      assert row in multiset(rows);
    }
    SummaryAgrees(sorted, missed);
  }

  // ---- The report ----

  predicate HigherReturn(a: Row, b: Row) { a.realPct >= b.realPct }

  predicate EarlierSymbol(a: Missed, b: Missed) { StringLe(a.symbol, b.symbol) }

  lemma {:induction false} RowsAreCoherent(states: seq<Ticker>, n: nat, end: int)
    requires n <= |states|
    ensures AllCoherent(Rows(states, n, end))
  {
    if n > 0 {
      RowsAreCoherent(states, n - 1, end);
    }
  }

  /** The rows are those of the tickers with a position. */
  lemma {:induction false} RowsAre(states: seq<Ticker>, n: nat, end: int, row: Row)
    requires n <= |states|
    ensures row in Rows(states, n, end) <==>
      exists i | 0 <= i < n :: Taken(states[i]) && row == RowOf(states[i], end)
  {
    if n > 0 {
      RowsAre(states, n - 1, end, row);
    }
  }

  /** The list ordered by return starts at the best trade and ends at the worst. */
  lemma SortedEnds(rows: seq<Row>, sorted: seq<Row>)
    requires rows != [] && multiset(sorted) == multiset(rows) && Sorted(HigherReturn, sorted)
    ensures sorted != [] && sorted[0].realPct == Best(rows) && sorted[|sorted| - 1].realPct == Worst(rows)
  {
    assert |sorted| == |multiset(sorted)| == |rows|;
    ExtremesTaken(rows);
    var b :| b in rows && b.realPct == Best(rows);
    var w :| w in rows && w.realPct == Worst(rows);
    assert b in multiset(sorted) && w in multiset(sorted);
    var i :| 0 <= i < |sorted| && sorted[i] == b;
    var j :| 0 <= j < |sorted| && sorted[j] == w;
    assert sorted[0] in multiset(rows) && sorted[|sorted| - 1] in multiset(rows);
    ExtremesBound(rows, sorted[0]);
    ExtremesBound(rows, sorted[|sorted| - 1]);
    assert i > 0 ==> HigherReturn(sorted[0], sorted[i]);
    assert j < |sorted| - 1 ==> HigherReturn(sorted[j], sorted[|sorted| - 1]);
  }

  datatype Tally = Tally(
    pnl: real, notional: real, pct: real, winAmt: real, lossAmt: real, winPct: real, lossPct: real,
    wins: nat, losses: nat, timeExits: nat, best: real, worst: real)

  function TallyOf(rows: seq<Row>): Tally {
    Tally(SumOf(rows, Amount), SumOf(rows, Notional), SumOf(rows, RealReturn),
          SumOf(rows, WinAmount), SumOf(rows, LossAmount), SumOf(rows, WinReturn), SumOf(rows, LossReturn),
          Count(rows, Win), Count(rows, Loss), Count(rows, TimedOut), Best(rows), Worst(rows))
  }

  /** Adds one row to the running figures. */
  method AddRow(sums: Tally, row: Row, first: bool, ghost rows: seq<Row>) returns (s: Tally)
    requires sums == TallyOf(rows) && (first <==> rows == [])
    ensures s == TallyOf(rows + [row])
  {
    assert (rows + [row])[..|rows|] == rows;
    s := sums.(pnl := sums.pnl + row.realAmt, notional := sums.notional + row.entryPrice * SHARES,
               pct := sums.pct + row.realPct);
    if row.reason == TimeExit {
      s := s.(timeExits := s.timeExits + 1);
    }
    if row.realAmt >= 0.0 {
      s := s.(winAmt := s.winAmt + row.realAmt, winPct := s.winPct + row.realPct, wins := s.wins + 1);
    } else {
      s := s.(lossAmt := s.lossAmt + row.realAmt, lossPct := s.lossPct + row.realPct, losses := s.losses + 1);
    }
    if first {
      s := s.(best := row.realPct, worst := row.realPct);
    } else {
      if row.realPct > s.best {
        s := s.(best := row.realPct);
      }
      if row.realPct < s.worst {
        s := s.(worst := row.realPct);
      }
    }
  }

  /** One pass over the tickers: rows, missed candidates and running figures. */
  method ScanStates(states: seq<Ticker>, f: Filters, end: int)
    returns (trades: seq<Row>, noEntries: seq<Missed>, sums: Tally)
    ensures trades == Rows(states, |states|, end) && noEntries == Misses(states, |states|, f)
    ensures |trades| + |noEntries| == |states| && sums == TallyOf(trades)
  {
    trades, noEntries := [], [];
    sums := TallyOf([]);
    var i := 0;
    while i < |states|
      invariant 0 <= i <= |states| && |trades| + |noEntries| == i
      invariant trades == Rows(states, i, end) && noEntries == Misses(states, i, f)
      invariant sums == TallyOf(trades)
    {
      var t := states[i];
      i := i + 1;
      if Taken(t) {
        var row := RowOf(t, end);
        sums := AddRow(sums, row, trades == [], trades);
        trades := trades + [row];
      } else {
        noEntries := noEntries + [MissedOf(t, f)];
      }
    }
  }

  /** The ratios of the summary, each guarded against an empty denominator. */
  method Summarise(sums: Tally, candidates: nat, tradeN: nat, missed: nat, ghost rows: seq<Row>) returns (s: Summary)
    requires sums == TallyOf(rows) && tradeN == |rows| && candidates == tradeN + missed
    ensures s == SummaryOf(rows, missed)
  {
    var winRate := if tradeN > 0 then sums.wins as real / tradeN as real else 0.0;
    var netRet := if sums.notional > 0.0 then sums.pnl / sums.notional else 0.0;
    var avgRet := if tradeN > 0 then sums.pct / tradeN as real else 0.0;
    var avgWin := if sums.wins > 0 then sums.winPct / sums.wins as real else 0.0;
    var avgLoss := if sums.losses > 0 then sums.lossPct / sums.losses as real else 0.0;
    var profitFactor := 0.0;
    if sums.lossAmt < 0.0 {
      profitFactor := sums.winAmt / (-sums.lossAmt);
    } else if sums.winAmt > 0.0 && sums.lossAmt == 0.0 {
      profitFactor := 999.0;
    }
    s := Summary(candidates, tradeN, missed, sums.wins, sums.losses, sums.timeExits, winRate, sums.pnl,
                 sums.notional, netRet, avgRet, avgWin, avgLoss, profitFactor, sums.best, sums.worst);
  }

  /** The order of equal returns is whatever the library's unstable sort leaves. */
  method SortTrades(rows: seq<Row>) returns (sorted: seq<Row>)
    ensures multiset(sorted) == multiset(rows) && |sorted| == |rows| && Sorted(HigherReturn, sorted)
    ensures rows != [] ==>
      sorted[0].realPct == Best(rows) && sorted[|sorted| - 1].realPct == Worst(rows)
  {
    sorted := Sort(HigherReturn, rows);
    assert |sorted| == |multiset(sorted)| == |rows|;
    if rows != [] {
      SortedEnds(rows, sorted);
    }
  }

  lemma {:induction false} EarlierSymbolOrder()
    ensures Total(EarlierSymbol) && Transitive(EarlierSymbol)
  {
    StringOrder();
    forall a, b ensures EarlierSymbol(a, b) || EarlierSymbol(b, a) {
      assert StringLe(a.symbol, b.symbol) || StringLe(b.symbol, a.symbol);
    }
    forall a, b, c | EarlierSymbol(a, b) && EarlierSymbol(b, c) ensures EarlierSymbol(a, c) {
      StringLeTransitive(a.symbol, b.symbol, c.symbol);
    }
  }

  method SortMisses(misses: seq<Missed>) returns (sorted: seq<Missed>)
    ensures multiset(sorted) == multiset(misses) && |sorted| == |misses| && Sorted(EarlierSymbol, sorted)
  {
    EarlierSymbolOrder();
    sorted := Sort(EarlierSymbol, misses);
    assert |sorted| == |multiset(sorted)| == |misses|;
  }

  lemma SummaryEnds(rows: seq<Row>, missed: nat)
    ensures var s := SummaryOf(rows, missed);
      s.best == Best(rows) && s.worst == Worst(rows) && s.candidates == |rows| + missed
  {
  }

  /** Sorting keeps one row and one entry a ticker. */
  lemma StillOnce(states: seq<Ticker>, f: Filters, end: int, sorted: seq<Row>, listed: seq<Missed>)
    requires multiset(sorted) == multiset(Rows(states, |states|, end))
    requires multiset(listed) == multiset(Misses(states, |states|, f))
    ensures DistinctSymbols(states) ==>
      Fanout.DistinctKeys(sorted, SymbolOf) && Fanout.DistinctKeys(listed, MissedSymbol)
  {
    if DistinctSymbols(states) {
      RowsOnce(states, |states|, end);
      MissesOnce(states, |states|, f);
      Fanout.KeysOfPermutation(Rows(states, |states|, end), sorted, SymbolOf);
      Fanout.KeysOfPermutation(Misses(states, |states|, f), listed, MissedSymbol);
    }
  }

  method BuildReport(states: seq<Ticker>, f: Filters, end: int) returns (rep: Report)
    ensures multiset(rep.trades) == multiset(Rows(states, |states|, end))
    ensures forall i, j | 0 <= i < j < |rep.trades| :: rep.trades[i].realPct >= rep.trades[j].realPct
    ensures multiset(rep.noEntries) == multiset(Misses(states, |states|, f))
    ensures forall i, j | 0 <= i < j < |rep.noEntries| ::
      StringLe(rep.noEntries[i].symbol, rep.noEntries[j].symbol)
    ensures rep.summary == SummaryOf(rep.trades, |rep.noEntries|)
    ensures DistinctSymbols(states) ==>
      Fanout.DistinctKeys(rep.trades, SymbolOf) && Fanout.DistinctKeys(rep.noEntries, MissedSymbol)
    ensures Agrees(rep.summary, rep.trades) && rep.summary.candidates == |states|
    ensures rep.trades != [] ==>
      rep.trades[0].realPct == rep.summary.best && rep.trades[|rep.trades| - 1].realPct == rep.summary.worst
  {
    hide Agrees, TallyOf, SummaryOf, Rows, Misses, Best, Worst, DistinctSymbols, Fanout.DistinctKeys;
    var trades, noEntries, sums := ScanStates(states, f, end);
    var sorted := SortTrades(trades);
    var listed := SortMisses(noEntries);
    var summary := Summarise(sums, |states|, |sorted|, |listed|, trades);
    ReportAgrees(states, end, sorted, |listed|);
    SummaryPermutes(trades, sorted, |listed|);
    StillOnce(states, f, end, sorted, listed);
    SummaryEnds(trades, |listed|);
    rep := Report(summary, sorted, listed, []);
  }

  /** In the row of a finished position nothing lies outside the recorded extremes. */
  lemma RowIsBracketed(t: Ticker, end: int)
    requires Taken(t) && ReplayLaws.Bracketed(t)
    ensures var r := RowOf(t, end);
      && r.exitPrice == t.position.exitPrice
      && r.maePct <= r.realPct <= r.mfePct
      && r.maePct <= r.holdPct <= r.mfePct
      && r.maePct <= 0.0 <= r.mfePct
      && r.maeAmt <= r.realAmt <= r.mfeAmt
  {
    var e, x := t.position.entryPrice, t.excursion;
    ReplayLaws.ReturnMonotone(e, x.minPrice, t.position.exitPrice);
    ReplayLaws.ReturnMonotone(e, t.position.exitPrice, x.maxPrice);
    ReplayLaws.ReturnMonotone(e, x.minPrice, t.market.lastPrice);
    ReplayLaws.ReturnMonotone(e, t.market.lastPrice, x.maxPrice);
    ReplayLaws.ReturnMonotone(e, x.minPrice, e);
    ReplayLaws.ReturnMonotone(e, e, x.maxPrice);
  }
}
