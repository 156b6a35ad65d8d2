/**
 The browser chart: the incremental indicators and the staged reveal of the bars.
 Times are Unix seconds; drawing is not modelled, only what is handed to the chart.
 */
module Chart {
  import opened Wrappers
  import opened Session
  import opened Reals

  datatype Bar = Bar(time: int, open: real, high: real, low: real, close: real, volume: real)

  datatype Point = Point(time: int, value: real)

  datatype Series = Series(candles: seq<Bar>, volumes: seq<Point>, sma9: seq<Point>, vwap: seq<Point>)

  datatype Separator = Separator(t0: int, t1: int)

  const PERIOD := 9
  const INITIAL_MINUTES := 6

  // ---- Indicators without a window or a running sum ----

  /** The bars from the open on. */
  function SinceOpen(bars: seq<Bar>, open: int, n: nat): seq<Bar>
    requires n <= |bars|
  {
    if n == 0 then []
    else SinceOpen(bars, open, n - 1) + if bars[n - 1].time < open then [] else [bars[n - 1]]
  }

  function Closes(bars: seq<Bar>): seq<real> {
    seq(|bars|, i requires 0 <= i < |bars| => bars[i].close)
  }

  function Sum(s: seq<real>): real {
    if s == [] then 0.0 else Sum(s[..|s| - 1]) + s[|s| - 1]
  }

  function SmaPoint(window: seq<Bar>): Point
    requires |window| == PERIOD
  {
    Point(window[PERIOD - 1].time, Sum(Closes(window)) / PERIOD as real)
  }

  /** One point for each bar with nine closes since the open: their mean. */
  function Sma(b: seq<Bar>): seq<Point> {
    var n := if |b| < PERIOD then 0 else |b| - PERIOD + 1;
    seq(n, i requires 0 <= i < n => SmaPoint(b[i..i + PERIOD]))
  }

  predicate Traded(b: Bar) { b.volume > 0.0 }

  /** The bars from the open on that traded. */
  function TradedSince(bars: seq<Bar>, open: int, n: nat): seq<Bar>
    requires n <= |bars|
  {
    if n == 0 then []
    else
      var b := bars[n - 1];
      TradedSince(bars, open, n - 1) + if b.time >= open && Traded(b) then [b] else []
  }

  /** The traded money, at the bar's typical price. */
  function Money(b: Bar): real { (b.high + b.low + b.close) / 3.0 * b.volume }

  function Mean(pv: real, v: real): real
    requires v > 0.0
  {
    pv / v
  }

  function PV(b: seq<Bar>, n: nat): real
    requires n <= |b|
  {
    if n == 0 then 0.0 else PV(b, n - 1) + Money(b[n - 1])
  }

  function V(b: seq<Bar>, n: nat): real
    requires n <= |b|
  {
    if n == 0 then 0.0 else V(b, n - 1) + b[n - 1].volume
  }

  lemma {:induction false} VolumePositive(b: seq<Bar>, n: nat)
    requires n <= |b| && forall i | 0 <= i < n :: Traded(b[i])
    ensures V(b, n) >= 0.0 && (n > 0 ==> V(b, n) > 0.0)
  {
    if n > 0 {
      VolumePositive(b, n - 1);
    }
  }

  lemma {:induction false} TradedAllTraded(bars: seq<Bar>, open: int, n: nat)
    requires n <= |bars|
    ensures forall i | 0 <= i < |TradedSince(bars, open, n)| :: Traded(TradedSince(bars, open, n)[i])
  {
    if n > 0 {
      TradedAllTraded(bars, open, n - 1);
    }
  }

  /** One point for each traded bar: the volume-weighted typical price so far. */
  function Vwap(b: seq<Bar>): seq<Point>
    requires forall i | 0 <= i < |b| :: Traded(b[i])
  {
    seq(|b|, i requires 0 <= i < |b| =>
      VolumePositive(b, i + 1);
      Point(b[i].time, Mean(PV(b, i + 1), V(b, i + 1))))
  }

  function SmaOf(bars: seq<Bar>, open: int): seq<Point> {
    Sma(SinceOpen(bars, open, |bars|))
  }

  function VwapOf(bars: seq<Bar>, open: int): seq<Point> {
    TradedAllTraded(bars, open, |bars|);
    Vwap(TradedSince(bars, open, |bars|))
  }

  function VolumePoints(bars: seq<Bar>): seq<Point> {
    seq(|bars|, i requires 0 <= i < |bars| => Point(bars[i].time, bars[i].volume))
  }

  function SeriesOf(bars: seq<Bar>, open: int): Series {
    Series(bars, VolumePoints(bars), SmaOf(bars, open), VwapOf(bars, open))
  }

  // ---- What the indicators say, bar by bar ----

  lemma {:induction false} SumsOfFew(s: seq<real>, n: nat)
    requires n < |s|
    ensures Sum(s[..n + 1]) == Sum(s[..n]) + s[n]
  {
    assert s[..n + 1][..n] == s[..n];
  }

  lemma SumOfNine(s: seq<real>)
    requires |s| == 9
    ensures Sum(s) == s[0] + s[1] + s[2] + s[3] + s[4] + s[5] + s[6] + s[7] + s[8]
  {
    hide Sum;
    EmptySum(s[..0]);
    SumsOfFew(s, 0);
    SumsOfFew(s, 1);
    SumsOfFew(s, 2);
    SumsOfFew(s, 3);
    SumsOfFew(s, 4);
    SumsOfFew(s, 5);
    SumsOfFew(s, 6);
    SumsOfFew(s, 7);
    SumsOfFew(s, 8);
    assert s[..9] == s;
  }

  lemma EmptySum(s: seq<real>)
    requires |s| == 0
    ensures Sum(s) == 0.0
  {
  }

  /** The point of the bar `i >= 8` since the open is the mean of its close and the eight before it. */
  lemma SmaIs(b: seq<Bar>, i: nat)
    requires 8 <= i < |b|
    ensures |Sma(b)| == |b| - 8
    ensures Sma(b)[i - 8] == Point(
      b[i].time,
      (b[i - 8].close + b[i - 7].close + b[i - 6].close + b[i - 5].close + b[i - 4].close + b[i - 3].close
       + b[i - 2].close + b[i - 1].close + b[i].close) / 9.0)
  {
    var w := b[i - 8..i + 1];
    assert Sma(b)[i - 8] == SmaPoint(w);
    SumOfNine(Closes(w));
    hide Sum;
  }

  /** What is handed to the chart: the bars, their volumes, and both indicators of the bars since the open. */
  lemma SeriesIs(bars: seq<Bar>, open: int, i: nat)
    requires i < |bars|
    ensures var s := SeriesOf(bars, open);
      && s.candles == bars && |s.volumes| == |bars|
      && s.volumes[i] == Point(bars[i].time, bars[i].volume)
      && s.sma9 == Sma(SinceOpen(bars, open, |bars|))
      && (forall j | 0 <= j < |TradedSince(bars, open, |bars|)| :: Traded(TradedSince(bars, open, |bars|)[j]))
      && s.vwap == Vwap(TradedSince(bars, open, |bars|))
  {
    TradedAllTraded(bars, open, |bars|);
  }

  /** Of chronological bars only a synthetic one before the open is dropped. */
  lemma {:induction false} SinceOpenIs(bars: seq<Bar>, open: int, n: nat)
    requires n <= |bars| && Chronological(bars, open)
    ensures SinceOpen(bars, open, n) == if n > 0 && bars[0].time < open then bars[1..n] else bars[..n]
  {
    if n > 0 {
      SinceOpenIs(bars, open, n - 1);
      if n > 1 {
        assert bars[0].time >= open - 60 && (bars[n - 1].time - open) % 60 == 0 && (bars[0].time - open) % 60 == 0;
      }
    }
  }

  /** A weighted sum of one of the prices over the first `n` bars. */
  function Weighted(b: seq<Bar>, n: nat, price: Bar -> real): real
    requires n <= |b|
  {
    if n == 0 then 0.0 else Weighted(b, n - 1, price) + price(b[n - 1]) * b[n - 1].volume
  }

  lemma {:induction false} MoneyIsThirds(b: seq<Bar>, n: nat)
    requires n <= |b|
    ensures 3.0 * PV(b, n) ==
      Weighted(b, n, (x: Bar) => x.high) + Weighted(b, n, (x: Bar) => x.low) + Weighted(b, n, (x: Bar) => x.close)
  {
    if n > 0 {
      MoneyIsThirds(b, n - 1);
      var x := b[n - 1];
      assert 3.0 * Money(x) == x.high * x.volume + x.low * x.volume + x.close * x.volume;
    }
  }

  lemma {:induction false} VolumeIsWeights(b: seq<Bar>, n: nat)
    requires n <= |b|
    ensures V(b, n) == Weighted(b, n, (x: Bar) => 1.0)
  {
    if n > 0 {
      VolumeIsWeights(b, n - 1);
    }
  }

  /** Three times the value, times the weight, is the money at high, low and close together. */
  ghost predicate MeanOfThree(value: real, weight: real, high: real, low: real, close: real) {
    3.0 * value * weight == high + low + close
  }

  lemma MeansOfThree(pv: real, v: real, high: real, low: real, close: real)
    requires v > 0.0 && 3.0 * pv == high + low + close
    ensures MeanOfThree(Mean(pv, v), v, high, low, close)
  {
    QuotientOrder(pv, v, 0.0);
    assert 3.0 * Mean(pv, v) * v == 3.0 * (Mean(pv, v) * v);
  }

  /** The point of the traded bar `i` is the mean of high, low and close over the volume so far. */
  lemma VwapIs(b: seq<Bar>, i: nat)
    requires i < |b| && forall j | 0 <= j < |b| :: Traded(b[j])
    ensures |Vwap(b)| == |b| && Vwap(b)[i].time == b[i].time
    ensures MeanOfThree(
      Vwap(b)[i].value, Weighted(b, i + 1, (x: Bar) => 1.0), Weighted(b, i + 1, (x: Bar) => x.high),
      Weighted(b, i + 1, (x: Bar) => x.low), Weighted(b, i + 1, (x: Bar) => x.close))
  {
    VolumePositive(b, i + 1);
    MoneyIsThirds(b, i + 1);
    VolumeIsWeights(b, i + 1);
    hide Weighted, PV, V, Mean, MeanOfThree;
    MeansOfThree(PV(b, i + 1), V(b, i + 1), Weighted(b, i + 1, (x: Bar) => x.high),
                 Weighted(b, i + 1, (x: Bar) => x.low), Weighted(b, i + 1, (x: Bar) => x.close));
  }

  /** The bars averaged are those from the open on that traded. */
  lemma {:induction false} TradedSinceAre(bars: seq<Bar>, open: int, n: nat, b: Bar)
    requires n <= |bars|
    ensures b in TradedSince(bars, open, n) <==> b in bars[..n] && b.time >= open && b.volume > 0.0
  {
    if n > 0 {
      TradedSinceAre(bars, open, n - 1, b);
      assert bars[..n] == bars[..n - 1] + [bars[n - 1]];
    }
  }

  // ---- The incremental computations ----

  function LastNine(b: seq<Bar>): seq<Bar> {
    if |b| <= PERIOD then b else b[|b| - PERIOD..]
  }

  lemma SmaSnoc(b: seq<Bar>, x: Bar)
    ensures var c := b + [x];
      Sma(c) == Sma(b) + if |c| < PERIOD then [] else [SmaPoint(LastNine(c))]
  {
    var c := b + [x];
    if |c| >= PERIOD {
      assert LastNine(c) == c[|c| - PERIOD..|c| - PERIOD + PERIOD];
      forall i | 0 <= i < |Sma(b)| ensures Sma(c)[i] == Sma(b)[i] {
        assert c[i..i + PERIOD] == b[i..i + PERIOD];
      }
    }
  }

  /** The window and the points after the bars `b`. */
  ghost predicate SmaState(b: seq<Bar>, win: seq<real>, out: seq<Point>) {
    win == Closes(LastNine(b)) && out == Sma(b)
  }

  function Slide(win: seq<real>, close: real): seq<real> {
    var w := win + [close];
    if |w| > PERIOD then w[1..] else w
  }

  lemma SmaGrows(b: seq<Bar>, x: Bar, win: seq<real>, out: seq<Point>)
    requires SmaState(b, win, out)
    ensures
      var w := Slide(win, x.close);
      SmaState(b + [x], w, out + if |w| == PERIOD then [Point(x.time, Sum(w) / PERIOD as real)] else [])
  {
    SmaSnoc(b, x);
    var c := b + [x];
    assert Slide(win, x.close) == Closes(LastNine(c));
    if |c| >= PERIOD {
      assert LastNine(c)[PERIOD - 1] == x;
    } else {
      assert out + [] == out;
    }
  }

  /** The nine-close window slides by push and shift. */
  method ComputeSMA9(bars: seq<Bar>, open: int) returns (out: seq<Point>)
    ensures out == SmaOf(bars, open)
  {
    var win: seq<real> := [];
    out := [];
    var i := 0;
    while i < |bars|
      invariant 0 <= i <= |bars|
      invariant SmaState(SinceOpen(bars, open, i), win, out)
    {
      var b := bars[i];
      ghost var seen := SinceOpen(bars, open, i);
      i := i + 1;
      if b.time < open {
        assert SinceOpen(bars, open, i) == seen;
        continue;
      }
      assert SinceOpen(bars, open, i) == seen + [b];
      SmaGrows(seen, b, win, out);
      win := win + [b.close];
      if |win| > PERIOD {
        win := win[1..];
      }
      if |win| == PERIOD {
        var sum := SumWindow(win);
        out := out + [Point(b.time, sum / PERIOD as real)];
      }
    }
  }

  method SumWindow(win: seq<real>) returns (sum: real)
    ensures sum == Sum(win)
  {
    sum := 0.0;
    var i := 0;
    while i < |win|
      invariant 0 <= i <= |win| && sum == Sum(win[..i])
    {
      assert win[..i + 1][..i] == win[..i];
      sum := sum + win[i];
      i := i + 1;
    }
    assert win[..|win|] == win;
  }

  lemma {:induction false} SumsPrefix(b: seq<Bar>, x: seq<Bar>, n: nat)
    requires n <= |b|
    ensures PV(b + x, n) == PV(b, n) && V(b + x, n) == V(b, n)
  {
    if n > 0 {
      SumsPrefix(b, x, n - 1);
    }
  }

  lemma VwapPrefix(b: seq<Bar>, x: seq<Bar>)
    requires forall i | 0 <= i < |b| :: Traded(b[i])
    requires forall i | 0 <= i < |x| :: Traded(x[i])
    ensures Vwap(b) <= Vwap(b + x)
  {
    forall i | 0 <= i < |b| ensures Vwap(b)[i] == Vwap(b + x)[i] {
      SumsPrefix(b, x, i + 1);
    }
  }

  lemma VwapSnoc(b: seq<Bar>, x: Bar)
    requires (forall i | 0 <= i < |b| :: Traded(b[i])) && Traded(x)
    ensures var c := b + [x];
      && PV(c, |c|) == PV(b, |b|) + Money(x)
      && V(c, |c|) == V(b, |b|) + x.volume > 0.0
      && Vwap(c) == Vwap(b) + [Point(x.time, Mean(PV(c, |c|), V(c, |c|)))]
  {
    VwapPrefix(b, [x]);
    SumsPrefix(b, [x], |b|);
    VolumePositive(b + [x], |b| + 1);
  }

  /** The running sums and the points after the traded bars `t`. */
  ghost predicate VwapState(t: seq<Bar>, cumPV: real, cumV: real, out: seq<Point>) {
    && (forall j | 0 <= j < |t| :: Traded(t[j]))
    && cumPV == PV(t, |t|) && cumV == V(t, |t|) && out == Vwap(t)
  }

  lemma VwapGrows(t: seq<Bar>, b: Bar, cumPV: real, cumV: real, out: seq<Point>)
    requires VwapState(t, cumPV, cumV, out) && Traded(b)
    ensures cumV + b.volume > 0.0
    ensures
      var pv, v := cumPV + Money(b), cumV + b.volume;
      VwapState(t + [b], pv, v, out + [Point(b.time, Mean(pv, v))])
  {
    VwapSnoc(t, b);
  }

  method ComputeVWAP(bars: seq<Bar>, open: int) returns (out: seq<Point>)
    ensures out == VwapOf(bars, open)
  {
    var cumPV, cumV := 0.0, 0.0;
    out := [];
    var i := 0;
    TradedAllTraded(bars, open, 0);
    while i < |bars|
      invariant 0 <= i <= |bars|
      invariant VwapState(TradedSince(bars, open, i), cumPV, cumV, out)
    {
      var b := bars[i];
      ghost var t := TradedSince(bars, open, i);
      i := i + 1;
      if b.time < open {
        assert TradedSince(bars, open, i) == t;
        continue;
      }
      var v := b.volume;
      if v <= 0.0 {
        assert TradedSince(bars, open, i) == t;
        continue;
      }
      assert TradedSince(bars, open, i) == t + [b];
      VwapGrows(t, b, cumPV, cumV, out);
      hide VwapState, Money, Mean;
      cumPV := cumPV + Money(b);
      cumV := cumV + v;
      if cumV > 0.0 {
        out := out + [Point(b.time, Mean(cumPV, cumV))];
      }
    }
  }

  method BuildSeries(bars: seq<Bar>, open: int) returns (s: Series)
    ensures s == SeriesOf(bars, open)
  {
    var sma9 := ComputeSMA9(bars, open);
    var vwap := ComputeVWAP(bars, open);
    return Series(bars, VolumePoints(bars), sma9, vwap);
  }

  // ---- No look-ahead ----

  lemma {:induction false} FiltersPrefix(bars: seq<Bar>, open: int, n: nat, m: nat)
    requires m <= n <= |bars|
    ensures SinceOpen(bars, open, m) <= SinceOpen(bars, open, n)
    ensures TradedSince(bars, open, m) <= TradedSince(bars, open, n)
  {
    if m < n {
      FiltersPrefix(bars, open, n - 1, m);
    }
  }

  lemma {:induction false} FiltersLocal(bars: seq<Bar>, open: int, n: nat, m: nat)
    requires m <= n <= |bars|
    ensures SinceOpen(bars[..n], open, m) == SinceOpen(bars, open, m)
    ensures TradedSince(bars[..n], open, m) == TradedSince(bars, open, m)
  {
    if m > 0 {
      FiltersLocal(bars, open, n, m - 1);
    }
  }

  lemma SmaPrefix(b: seq<Bar>, c: seq<Bar>)
    requires b <= c
    ensures Sma(b) <= Sma(c)
  {
    forall i | 0 <= i < |Sma(b)| ensures Sma(b)[i] == Sma(c)[i] {
      assert b[i..i + PERIOD] == c[i..i + PERIOD];
    }
  }

  /** What is drawn for the first `n` bars is the beginning of what is drawn for all of them. */
  lemma NoLookAhead(bars: seq<Bar>, open: int, n: nat)
    requires n <= |bars|
    ensures SmaOf(bars[..n], open) <= SmaOf(bars, open)
    ensures VwapOf(bars[..n], open) <= VwapOf(bars, open)
  {
    FiltersLocal(bars, open, n, n);
    FiltersPrefix(bars, open, |bars|, n);
    SmaPrefix(SinceOpen(bars, open, n), SinceOpen(bars, open, |bars|));
    var t, u := TradedSince(bars, open, n), TradedSince(bars, open, |bars|);
    TradedAllTraded(bars, open, n);
    TradedAllTraded(bars, open, |bars|);
    assert u == t + u[|t|..];
    VwapPrefix(t, u[|t|..]);
  }

  // ---- Staged reveal ----

  /** Strictly increasing minute bars, at most the one synthetic previous-close bar before the open. */
  ghost predicate Chronological(bars: seq<Bar>, open: int) {
    && (forall i | 0 <= i < |bars| :: bars[i].time >= open - 60 && (bars[i].time - open) % 60 == 0)
    && (forall i, j | 0 <= i < j < |bars| :: bars[i].time < bars[j].time)
  }

  predicate Sound(b: Bar) { b.open > 0.0 && b.high > 0.0 && b.low > 0.0 && b.close > 0.0 }

  /** The sound bars among the first `n`, stamped by position: bar `i` starts `i` minutes after the open. */
  function Stamped(aggs: seq<Bar>, open: int, n: nat): seq<Bar>
    requires n <= |aggs|
  {
    if n == 0 then []
    else Stamped(aggs, open, n - 1) + if Sound(aggs[n - 1]) then [aggs[n - 1].(time := open + 60 * (n - 1))] else []
  }

  /** Exactly the bars with four positive prices, each a minute after the one before it in the answer. */
  lemma {:induction false} StampedAre(aggs: seq<Bar>, open: int, n: nat, b: Bar)
    requires n <= |aggs|
    ensures b in Stamped(aggs, open, n) <==>
      exists i | 0 <= i < n ::
        var a := aggs[i];
        a.open > 0.0 && a.high > 0.0 && a.low > 0.0 && a.close > 0.0
        && b == Bar(open + 60 * i, a.open, a.high, a.low, a.close, a.volume)
  {
    if n > 0 {
      StampedAre(aggs, open, n - 1, b);
    }
  }

  ghost predicate Within(s: seq<Bar>, lo: int, hi: int) {
    forall i | 0 <= i < |s| :: lo <= s[i].time < hi
  }

  lemma WithinWider(s: seq<Bar>, lo: int, hi: int, hi': int)
    requires Within(s, lo, hi) && hi <= hi'
    ensures Within(s, lo, hi')
  {
  }

  lemma ChronologicalJoin(a: seq<Bar>, b: seq<Bar>, open: int, lo: int, mid: int, hi: int)
    requires Chronological(a, open) && Chronological(b, open)
    requires Within(a, lo, mid) && Within(b, mid, hi) && lo <= mid <= hi
    ensures Chronological(a + b, open) && Within(a + b, lo, hi)
  {
  }

  lemma NoBars(open: int)
    ensures Chronological([], open) && Within([], open, open)
  {
  }

  lemma {:induction false} StampedChronological(aggs: seq<Bar>, open: int, n: nat)
    requires n <= |aggs|
    ensures Chronological(Stamped(aggs, open, n), open)
    ensures Within(Stamped(aggs, open, n), open, open + 60 * n)
  {
    hide Chronological, Within, Sound;
    if n == 0 {
      NoBars(open);
    } else {
      var front, t := Stamped(aggs, open, n - 1), open + 60 * (n - 1);
      var last := aggs[n - 1].(time := t);
      StampedChronological(aggs, open, n - 1);
      ChronologicalJoin(front, [last], open, open, t, t + 60);
      WithinWider(front, open, t, t + 60);
      assert front + [] == front;
    }
  }

  /** The session's sound bars, after the previous close a minute before the open. */
  method ChartBars(prevClose: Option<Bar>, aggs: seq<Bar>, open: int) returns (out: seq<Bar>)
    ensures Chronological(out, open)
    ensures out ==
      (if prevClose.Some? then [prevClose.value.(time := open - 60)] else []) + Stamped(aggs, open, |aggs|)
  {
    var today := ListBars(aggs, open);
    StampedChronological(aggs, open, |aggs|);
    out := [];
    if prevClose.Some? {
      out := [prevClose.value.(time := open - 60)];
    }
    assert Chronological(out, open) && Within(out, open - 60, open);
    hide Chronological, Within;
    ChronologicalJoin(out, today, open, open - 60, open, open + 60 * |aggs|);
    out := out + today;
  }

  method ListBars(aggs: seq<Bar>, start: int) returns (out: seq<Bar>)
    ensures out == Stamped(aggs, start, |aggs|)
  {
    out := [];
    var idx := 0;
    while idx < |aggs|
      invariant 0 <= idx <= |aggs| && out == Stamped(aggs, start, idx)
    {
      var a := aggs[idx];
      var t := start + idx * 60;
      idx := idx + 1;
      if a.open <= 0.0 || a.high <= 0.0 || a.low <= 0.0 || a.close <= 0.0 {
        continue;
      }
      out := out + [a.(time := t)];
    }
  }

  const TRIES := 15

  /** The last sound bar of the day's last minute, if the lookup succeeded and there is one. */
  ghost function LastMinute(minute: int -> Option<seq<Bar>>, closeOf: int -> int, day: int): Option<Bar> {
    if minute(day).None? then None
    else
      var bars := Stamped(minute(day).value, closeOf(day), |minute(day).value|);
      if bars == [] then None else Some(bars[|bars| - 1])
  }

  ghost predicate NoneSince(minute: int -> Option<seq<Bar>>, closeOf: int -> int, d: int, day: int) {
    forall x | d < x < day && IsSession(x) :: LastMinute(minute, closeOf, x).None?
  }

  /** The search has come down to `d` with nothing found. */
  ghost predicate Searched(minute: int -> Option<seq<Bar>>, closeOf: int -> int, d: int, day: int, tries: int) {
    var start := SearchStart(day);
    && (d < start || (d == start && tries == 0 && Weekday(d) == SATURDAY))
    && NoneAsked(minute, closeOf, d, start) && DaysAsked(d, start) == tries
  }

  lemma SearchStarts(day: int, minute: int -> Option<seq<Bar>>, closeOf: int -> int)
    ensures Searched(minute, closeOf, day - 1, day, 0)
  {
  }

  /** Over a Saturday, a Sunday, or a day that was asked and had nothing. */
  lemma SearchOn(day: int, minute: int -> Option<seq<Bar>>, closeOf: int -> int, d: int, tries: int)
    requires Searched(minute, closeOf, d, day, tries)
    ensures d <= SearchStart(day) && (d == SearchStart(day) ==> Weekday(d) == SATURDAY)
    ensures Weekday(d) == SUNDAY || d == SearchStart(day) ==> Searched(minute, closeOf, d - 1, day, tries)
    ensures d < SearchStart(day) && Weekday(d) != SUNDAY && LastMinute(minute, closeOf, d).None? ==>
      Searched(minute, closeOf, d - 1, day, tries + 1)
  {
    DayBefore(d);
    hide LastMinute;
  }

  lemma SearchFound(
    day: int, minute: int -> Option<seq<Bar>>, closeOf: int -> int, d: int, tries: int, b: Bar)
    requires Searched(minute, closeOf, d, day, tries) && tries < 15
    requires d < SearchStart(day) && Weekday(d) != SUNDAY && LastMinute(minute, closeOf, d) == Some(b)
    ensures PrevCloseIs(day, minute, closeOf, Some((d, b)))
  {
  }

  lemma SearchFailed(day: int, minute: int -> Option<seq<Bar>>, closeOf: int -> int, d: int)
    requires Searched(minute, closeOf, d, day, 15)
    ensures PrevCloseIs(day, minute, closeOf, None)
  {
  }

  /** Among the days asked are all weekdays. */
  lemma SearchMissesNone(day: int, minute: int -> Option<seq<Bar>>, closeOf: int -> int, d: int, tries: int)
    requires Searched(minute, closeOf, d, day, tries)
    ensures NoneSince(minute, closeOf, d, day)
  {
    hide LastMinute;
  }

  /** Where the search starts: before a Sunday it skips the Saturday at once. */
  ghost function SearchStart(day: int): int {
    if Weekday(day - 1) == SATURDAY then day - 1 else day
  }

  /** How many days between `d` and `start` were asked: all but the Sundays. */
  ghost function DaysAsked(d: int, start: int): (n: nat)
    decreases start - d
  {
    if d >= start - 1 then 0 else DaysAsked(d + 1, start) + if Weekday(d + 1) == SUNDAY then 0 else 1
  }

  /** None of the days asked has a bar. */
  ghost predicate NoneAsked(minute: int -> Option<seq<Bar>>, closeOf: int -> int, d: int, start: int) {
    forall x | d < x < start && Weekday(x) != SUNDAY :: LastMinute(minute, closeOf, x).None?
  }

  /** What the search says: the first of at most fifteen days asked that has a bar, if there is one. */
  ghost predicate PrevCloseIs(
    day: int, minute: int -> Option<seq<Bar>>, closeOf: int -> int, prev: Option<(int, Bar)>)
  {
    var start := SearchStart(day);
    match prev
    case Some((d, b)) =>
      && d < start && Weekday(d) != SUNDAY && LastMinute(minute, closeOf, d) == Some(b)
      && NoneAsked(minute, closeOf, d, start) && DaysAsked(d, start) < 15
    case None =>
      exists d | d < start :: NoneAsked(minute, closeOf, d, start) && DaysAsked(d, start) == 15
  }

  lemma {:induction false} AskedMonotone(p: int, q: int, start: int)
    requires p <= q
    ensures DaysAsked(p, start) >= DaysAsked(q, start)
    ensures p < q < start && Weekday(q) != SUNDAY ==> DaysAsked(p, start) > DaysAsked(q, start)
    decreases q - p
  {
    if p < q {
      AskedMonotone(p + 1, q, start);
    }
  }

  /** That leaves one answer. */
  lemma PrevCloseUnique(
    day: int, minute: int -> Option<seq<Bar>>, closeOf: int -> int, p: Option<(int, Bar)>, q: Option<(int, Bar)>)
    requires PrevCloseIs(day, minute, closeOf, p) && PrevCloseIs(day, minute, closeOf, q)
    ensures p == q
  {
    var start := SearchStart(day);
    if p.None? && q.Some? {
      var d :| d < start && NoneAsked(minute, closeOf, d, start) && DaysAsked(d, start) == 15;
      AskedMonotone(if d < q.value.0 then d else q.value.0, d, start);
    } else if p.Some? && q.None? {
      var d :| d < start && NoneAsked(minute, closeOf, d, start) && DaysAsked(d, start) == 15;
      AskedMonotone(if d < p.value.0 then d else p.value.0, d, start);
    }
  }

  /**
   The previous close: that of the latest weekday that has one, looked for over at least
   the fifteen days before.  Coming back over a weekend the search also asks the Saturday.
   */
  method FindPrevClose(day: int, minute: int -> Option<seq<Bar>>, closeOf: int -> int)
    returns (prev: Option<(int, Bar)>)
    ensures prev.Some? ==>
      var (d, b) := prev.value;
      d < day && LastMinute(minute, closeOf, d) == Some(b) && NoneSince(minute, closeOf, d, day)
    ensures prev.None? ==> NoneSince(minute, closeOf, day - 16, day)
    ensures PrevCloseIs(day, minute, closeOf, prev)
  {
    SearchStarts(day, minute, closeOf);
    DayBefore(day);
    hide Searched, NoneAsked, DaysAsked, PrevCloseIs;
    var d := day - 1;
    var tries := 0;
    while tries < TRIES
      invariant 0 <= tries <= TRIES && d <= day - 1 - tries
      invariant Searched(minute, closeOf, d, day, tries)
      invariant Weekday(d) == SATURDAY ==> d == SearchStart(day)
    {
      while Weekday(d) == SATURDAY
        invariant d <= day - 1 - tries && Searched(minute, closeOf, d, day, tries)
        invariant Weekday(d) == SATURDAY ==> d == SearchStart(day)
        decreases if Weekday(d) == SATURDAY then 1 else 0
      {
        SearchOn(day, minute, closeOf, d, tries);
        DayBefore(d);
        d := d - 1;
      }
      SearchOn(day, minute, closeOf, d, tries);
      while Weekday(d) == SUNDAY
        invariant d < SearchStart(day)
        invariant d <= day - 1 - tries && Searched(minute, closeOf, d, day, tries)
        decreases if Weekday(d) == SUNDAY then 1 else 0
      {
        SearchOn(day, minute, closeOf, d, tries);
        DayBefore(d);
        d := d - 1;
      }
      SearchOn(day, minute, closeOf, d, tries);
      SearchMissesNone(day, minute, closeOf, d, tries);
      DayBefore(d);
      var aggs := minute(d);
      if aggs.Some? {
        var bars := ListBars(aggs.value, closeOf(d));
        if |bars| > 0 {
          prev := Some((d, bars[|bars| - 1]));
          SearchFound(day, minute, closeOf, d, tries, bars[|bars| - 1]);
          return;
        }
      }
      d := d - 1;
      tries := tries + 1;
    }
    SearchMissesNone(day, minute, closeOf, d, tries);
    SearchFailed(day, minute, closeOf, d);
    return None;
  }

  /** The server's reply: nothing if the session's own bars could not be fetched. */
  method ChartReply(day: int, open: int, minute: int -> Option<seq<Bar>>, closeOf: int -> int, aggs: Option<seq<Bar>>)
    returns (reply: Option<seq<Bar>>)
    ensures reply.Some? <==> aggs.Some?
    ensures reply.Some? ==> Chronological(reply.value, open)
    ensures reply.Some? ==>
      exists prev: Option<Bar> ::
        && (prev.None? ==> NoneSince(minute, closeOf, day - 16, day))
        && (prev.Some? ==>
              exists d | d < day :: LastMinute(minute, closeOf, d) == prev && NoneSince(minute, closeOf, d, day))
        && reply.value == (if prev.Some? then [prev.value.(time := open - 60)] else [])
                          + Stamped(aggs.value, open, |aggs.value|)
    ensures reply.Some? ==>
      exists found: Option<(int, Bar)> ::
        && PrevCloseIs(day, minute, closeOf, found)
        && reply.value == (if found.Some? then [found.value.1.(time := open - 60)] else [])
                          + Stamped(aggs.value, open, |aggs.value|)
  {
    hide PrevCloseIs, Chronological;
    var found := FindPrevClose(day, minute, closeOf);
    if aggs.None? {
      return None;
    }
    var prev := if found.Some? then Some(found.value.1) else None;
    var bars := ChartBars(prev, aggs.value, open);
    return Some(bars);
  }

  /** How many bars the initial reveal shows. */
  ghost predicate InitialCount(bars: seq<Bar>, open: int, n: nat) {
    && n <= |bars|
    && (forall i | 0 <= i < n :: bars[i].time <= open + 300)
    && (n < |bars| ==> bars[n].time > open + 300)
  }

  /** The bars before and up to five minutes after the open; a few if the open is unknown. */
  method CountInitial(bars: seq<Bar>, open: int) returns (n: nat)
    ensures n <= |bars|
    ensures open == 0 ==> n == if |bars| < 7 then |bars| else 7
    ensures open != 0 ==> InitialCount(bars, open, n)
  {
    var lastInitial := if open != 0 then open + (INITIAL_MINUTES - 1) * 60 else 0;
    n := 0;
    if open != 0 {
      while n < |bars| && (bars[n].time < open || bars[n].time <= lastInitial)
        invariant 0 <= n <= |bars|
        invariant forall i | 0 <= i < n :: bars[i].time <= open + 300
      {
        n := n + 1;
      }
    } else {
      n := if |bars| < 1 + INITIAL_MINUTES then |bars| else 1 + INITIAL_MINUTES;
    }
  }

  class View {
    var bars: seq<Bar>
    var open: int
    var shownN: nat
    var sep: Option<Separator>
    var loaded: bool
    var drawable: bool
    var full: Series
    var painted: Series

    ghost predicate Valid()
      reads this
    {
      && shownN <= |bars|
      && (loaded ==> full == SeriesOf(bars, open))
      && (loaded && drawable ==> painted == SeriesOf(bars[..shownN], open))
    }

    constructor ()
      ensures Valid() && !loaded && shownN == 0 && sep == None
    {
      bars, open, shownN, sep, loaded, drawable := [], 0, 0, None, false, false;
      full, painted := Series([], [], [], []), Series([], [], [], []);
    }

    /** Draws the full series once everything is shown, the series of the shown prefix before. */
    method Paint()
      requires shownN <= |bars| && (loaded ==> full == SeriesOf(bars, open))
      modifies this`painted
      ensures loaded && drawable ==> painted == SeriesOf(bars[..shownN], open)
      ensures !loaded || !drawable ==> painted == old(painted)
    {
      if !drawable {
        return;
      }
      if !loaded {
        return;
      }
      if shownN >= |bars| {
        assert bars[..shownN] == bars;
        painted := full;
      } else {
        painted := BuildSeries(bars[..shownN], open);
      }
    }

    /**
     Loads a chart and shows the bars up to five minutes after the open.  A failed or an
     empty reply tears the chart down, though what it showed is still remembered; without the
     chart library nothing changes.
     */
    method Show(reply: Option<seq<Bar>>, newOpen: int, library: bool)
      requires Valid()
      modifies this
      ensures Valid() && sep == None
      ensures reply.None? || reply.value == [] ==>
        !drawable && unchanged(`bars, `open, `shownN, `loaded, `full, `painted)
      ensures reply.Some? && reply.value != [] && !library ==>
        unchanged(`bars, `open, `shownN, `loaded, `full, `painted, `drawable)
      ensures reply.Some? && reply.value != [] && library ==>
        && loaded && drawable && bars == reply.value && open == newOpen
        && (newOpen == 0 ==> shownN == if |bars| < 7 then |bars| else 7)
        && (newOpen != 0 ==> InitialCount(bars, open, shownN))
    {
      hide SeriesOf, InitialCount;
      sep := None;
      if reply.None? {
        drawable := false;
        return;
      }
      var newBars := reply.value;
      if newBars == [] {
        drawable := false;
        return;
      }
      if !library {
        return;
      }
      drawable := true;
      bars, open, loaded := newBars, newOpen, true;
      full := BuildSeries(newBars, newOpen);
      shownN := CountInitial(newBars, newOpen);
      Paint();
    }

    method ShowNext()
      requires Valid()
      modifies this
      ensures Valid() && unchanged(`bars, `open, `loaded, `full, `sep, `drawable)
      ensures shownN == if loaded && old(shownN) < |bars| then old(shownN) + 1 else old(shownN)
    {
      if !loaded {
        return;
      }
      if shownN >= |bars| {
        return;
      }
      shownN := shownN + 1;
      Paint();
    }

    /** Reveals everything, marking the gap between the last shown bar and the first new one. */
    method ShowRest()
      requires Valid()
      modifies this
      ensures Valid() && unchanged(`bars, `open, `loaded, `full, `drawable)
      ensures shownN == if loaded then |bars| else old(shownN)
      ensures !loaded || old(shownN) == |bars| ==> sep == old(sep)
      ensures loaded && old(shownN) < |bars| ==>
        var n := old(shownN);
        sep == if n > 0 && bars[n - 1].time != 0 && bars[n].time != 0 && bars[n - 1].time < bars[n].time
               then Some(Separator(bars[n - 1].time, bars[n].time)) else None
    {
      if !loaded {
        return;
      }
      if shownN >= |bars| {
        return;
      }
      sep := None;
      var n := shownN;
      if n > 0 && |bars| > n {
        var t0, t1 := bars[n - 1].time, bars[n].time;
        if t0 != 0 && t1 != 0 && t1 > t0 {
          sep := Some(Separator(t0, t1));
        }
      }
      shownN := |bars|;
      Paint();
    }
  }

  lemma {:induction false} MinutesApart(bars: seq<Bar>, open: int, i: nat)
    requires Chronological(bars, open) && i < |bars|
    ensures bars[i].time >= open - 60 + 60 * i
  {
    if i > 0 {
      MinutesApart(bars, open, i - 1);
      assert (bars[i].time - open) % 60 == 0 && (bars[i - 1].time - open) % 60 == 0;
    }
  }

  /** On chronological minute bars the initial reveal is exactly the bars up to open + 5 minutes, at most seven. */
  lemma InitialReveal(bars: seq<Bar>, open: int, n: nat)
    requires Chronological(bars, open) && InitialCount(bars, open, n)
    ensures n <= 7
    ensures forall i | 0 <= i < |bars| :: i < n <==> bars[i].time <= open + 300
  {
    if n > 0 {
      MinutesApart(bars, open, n - 1);
    }
  }
}
