/**
 The opening five minutes: the REST folds over minute bars, the streaming fold of the
 WebSocket path, and the average opening volume of earlier sessions.
 */
module OpenRange {
  import opened Wrappers
  import opened Tape
  import opened Reals

  datatype Bar = Bar(open: real, high: real, low: real, close: real, volume: real)

  /** What a REST lookup reports; a bar list whose iterator failed yields `Failed`. */
  datatype Lookup = Failed | NoBars | Found(open: real, high: real, low: real, vol: real)

  // ---- The REST fold ----

  function Lower(low: real, x: real): real {
    if low == 0.0 || x < low then x else low
  }

  function Higher(high: real, x: real): real {
    if x > high then x else high
  }

  /** The running open, high, low and volume after the first `n` bars; bars without an open are skipped. */
  function RestFold(bars: seq<Bar>, n: nat): Lookup
    requires n <= |bars|
  {
    if n == 0 then NoBars
    else
      var b, r := bars[n - 1], RestFold(bars, n - 1);
      if b.open <= 0.0 then r
      else
        match r
        case Found(o, hi, lo, vol) => Found(o, Higher(hi, b.high), Lower(lo, b.low), vol + b.volume)
        case _ => Found(b.open, b.high, b.low, b.volume)
  }

  method Open5mMetrics(bars: seq<Bar>, failed: bool) returns (r: Lookup)
    ensures r == if failed then Failed else RestFold(bars, |bars|)
  {
    var open, high, low, vol := 0.0, 0.0, 0.0, 0.0;
    var n, i := 0, 0;
    while i < |bars|
      invariant 0 <= i <= |bars| && 0 <= n
      invariant RestFold(bars, i) == if n == 0 then NoBars else Found(open, high, low, vol)
      invariant n == 0 ==> vol == 0.0
    {
      var a := bars[i];
      i := i + 1;
      if a.open <= 0.0 {
        continue;
      }
      if n == 0 {
        open, high, low := a.open, a.high, a.low;
      } else {
        if a.high > high {
          high := a.high;
        }
        if low == 0.0 || a.low < low {
          low := a.low;
        }
      }
      vol := vol + a.volume;
      n := n + 1;
    }
    if failed {
      return Failed;
    }
    if n == 0 {
      return NoBars;
    }
    return Found(open, high, low, vol);
  }

  function TotalVolume(bars: seq<Bar>, n: nat, counts: Bar -> bool): real
    requires n <= |bars|
  {
    if n == 0 then 0.0
    else TotalVolume(bars, n - 1, counts) + if counts(bars[n - 1]) then bars[n - 1].volume else 0.0
  }

  predicate Opens(b: Bar) { b.open > 0.0 }

  predicate Skipped(b: Bar) { b.open <= 0.0 }

  /** With positive lows, the fold reports the first open, the true extremes and the full volume. */
  lemma {:induction false} RestFoldIsExact(bars: seq<Bar>, n: nat)
    requires n <= |bars| && forall i | 0 <= i < n :: bars[i].low > 0.0
    ensures var r := RestFold(bars, n);
      && (r.Found? <==> exists i | 0 <= i < n :: Opens(bars[i]))
      && (r.Found? || r.NoBars?)
      && (r.Found? ==>
            && (exists i | 0 <= i < n :: Opens(bars[i]) && r.open == bars[i].open
                                         && forall j | 0 <= j < i :: !Opens(bars[j]))
            && (exists i | 0 <= i < n :: Opens(bars[i]) && r.high == bars[i].high)
            && (exists i | 0 <= i < n :: Opens(bars[i]) && r.low == bars[i].low)
            && (forall i | 0 <= i < n && Opens(bars[i]) :: r.low <= bars[i].low && bars[i].high <= r.high)
            && r.vol == TotalVolume(bars, n, Opens))
      && (r.NoBars? ==> TotalVolume(bars, n, Opens) == 0.0)
  {
    if n > 0 {
      RestFoldIsExact(bars, n - 1);
      assert Opens(bars[n - 1]) || !Opens(bars[n - 1]);
    }
  }

  /** Bar `z - 1` is the last that counts and has a low of 0; `low` is the least of those after it, or 0. */
  ghost predicate LeastSince(bars: seq<Bar>, z: nat, n: nat, low: real) {
    && z <= n <= |bars|
    && (z > 0 ==> Opens(bars[z - 1]) && bars[z - 1].low == 0.0)
    && (forall i | z <= i < n && Opens(bars[i]) :: 0.0 < bars[i].low && low <= bars[i].low)
    && (low == 0.0 || exists i | z <= i < n :: Opens(bars[i]) && low == bars[i].low)
    && (low == 0.0 ==> forall i | z <= i < n :: !Opens(bars[i]))
  }

  /** A low of 0 is forgotten as soon as another bar counts: the low is the least since the last 0. */
  lemma {:induction false} ZeroLowIsForgotten(bars: seq<Bar>, n: nat)
    requires n <= |bars| && forall i | 0 <= i < n && Opens(bars[i]) :: bars[i].low >= 0.0
    ensures var r := RestFold(bars, n);
      if r.Found? then exists z: nat :: LeastSince(bars, z, n, r.low)
      else r.NoBars? && forall i | 0 <= i < n :: !Opens(bars[i])
  {
    if n > 0 {
      var b, r, s := bars[n - 1], RestFold(bars, n - 1), RestFold(bars, n);
      ZeroLowIsForgotten(bars, n - 1);
      if Opens(b) && b.low == 0.0 {
        assert LeastSince(bars, n, n, s.low);
      } else if r.Found? {
        var z: nat :| LeastSince(bars, z, n - 1, r.low);
        assert LeastSince(bars, z, n, s.low);
      } else if Opens(b) {
        assert LeastSince(bars, 0, n, s.low);
      }
    }
  }

  // ---- The streaming fold ----

  /** `onMinuteAgg` on the ticker's opening fields; `minute` is the bar's minute of the day. */
  function StreamStep(o: Opening, minute: int, b: Bar): Opening {
    var p :=
      if o.open0930 == 0.0
      then o.(open0930 := b.open, high := b.high, low := b.low, estimated := minute != 570)
      else o.(high := Higher(o.high, b.high), low := Lower(o.low, b.low));
    p.(vol := p.vol + b.volume)
  }

  /** The opening fields after the first `n` streamed bars, each with its minute of the day. */
  function StreamFold(o: Opening, feed: seq<(int, Bar)>, n: nat): Opening
    requires n <= |feed|
  {
    if n == 0 then o else StreamStep(StreamFold(o, feed, n - 1), feed[n - 1].0, feed[n - 1].1)
  }

  lemma {:induction false} StreamFoldPrefix(o: Opening, a: seq<(int, Bar)>, b: seq<(int, Bar)>, n: nat)
    requires n <= |a| && n <= |b| && forall i | 0 <= i < n :: a[i] == b[i]
    ensures StreamFold(o, a, n) == StreamFold(o, b, n)
  {
    if n > 0 {
      StreamFoldPrefix(o, a, b, n - 1);
    }
  }

  lemma StreamSnoc(o: Opening, a: seq<(int, Bar)>, k: (int, Bar))
    ensures StreamFold(o, a + [k], |a| + 1) == StreamStep(StreamFold(o, a, |a|), k.0, k.1)
  {
    StreamFoldPrefix(o, a, a + [k], |a|);
  }

  function BarsOf(feed: seq<(int, Bar)>): seq<Bar> {
    seq(|feed|, i requires 0 <= i < |feed| => feed[i].1)
  }

  /** From a fresh ticker, bars with positive opens give the streaming path what they give the REST path. */
  lemma {:induction false} StreamAgreesWithRest(feed: seq<(int, Bar)>, n: nat)
    requires n <= |feed| && forall i | 0 <= i < n :: Opens(feed[i].1)
    ensures var o := StreamFold(NO_OPENING, feed, n);
      match RestFold(BarsOf(feed), n)
      case Found(open, hi, lo, vol) =>
        && open > 0.0 && n > 0
        && o == NO_OPENING.(open0930 := open, high := hi, low := lo, vol := vol, estimated := feed[0].0 != 570)
      case _ => n == 0 && o == NO_OPENING
  {
    if n > 0 {
      StreamAgreesWithRest(feed, n - 1);
    }
  }

  function VolumeOf(r: Lookup): real {
    if r.Found? then r.vol else 0.0
  }

  /**
   Without that condition the two volumes differ by exactly the volume of the bars that
   only REST skips, so they agree if and only if that volume is zero.
   */
  lemma {:induction false} VolumeGap(feed: seq<(int, Bar)>, n: nat)
    requires n <= |feed|
    ensures var bars := BarsOf(feed);
      var streamed, rest := StreamFold(NO_OPENING, feed, n).vol, VolumeOf(RestFold(bars, n));
      && streamed == rest + TotalVolume(bars, n, Skipped)
      && (streamed == rest <==> TotalVolume(bars, n, Skipped) == 0.0)
  {
    if n > 0 {
      VolumeGap(feed, n - 1);
    }
  }

  /** `f` is the first bar that carries an open; the stream starts over with each bar before it. */
  ghost predicate Starts(feed: seq<(int, Bar)>, f: nat) {
    f < |feed| && feed[f].1.open != 0.0 && forall j | 0 <= j < f :: feed[j].1.open == 0.0
  }

  lemma {:induction false} NotStarted(feed: seq<(int, Bar)>, f: nat, n: nat)
    requires Starts(feed, f) && n <= f
    ensures StreamFold(NO_OPENING, feed, n).open0930 == 0.0
  {
    if n > 0 {
      NotStarted(feed, f, n - 1);
    }
  }

  /** From that bar on the streamed extremes are those of all bars, skipped by REST or not. */
  lemma {:induction false} StreamExtremes(feed: seq<(int, Bar)>, f: nat, n: nat)
    requires Starts(feed, f) && f < n <= |feed| && forall j | f <= j < n :: feed[j].1.low > 0.0
    ensures var o := StreamFold(NO_OPENING, feed, n);
      && o.open0930 == feed[f].1.open && o.low > 0.0
      && (forall j | f <= j < n :: feed[j].1.high <= o.high && o.low <= feed[j].1.low)
      && (exists j | f <= j < n :: feed[j].1.high == o.high)
      && (exists j | f <= j < n :: feed[j].1.low == o.low)
  {
    if n == f + 1 {
      NotStarted(feed, f, f);
    } else {
      StreamExtremes(feed, f, n - 1);
    }
  }

  /**
   With positive lows the two paths agree on the open exactly if the first bar with an
   open has a positive one, and on an extreme exactly if no bar that REST skips goes
   beyond what the bars it counts reach.  If REST has nothing, the streamed open is unusable.
   */
  lemma ExtremesAgreeExactly(feed: seq<(int, Bar)>, f: nat, n: nat)
    requires Starts(feed, f) && f < n <= |feed| && forall j | 0 <= j < n :: feed[j].1.low > 0.0
    ensures var o, r := StreamFold(NO_OPENING, feed, n), RestFold(BarsOf(feed), n);
      && (r.Found? <==> exists j | f <= j < n :: Opens(feed[j].1))
      && (!r.Found? ==> o.open0930 <= 0.0)
      && (r.Found? ==>
            && (o.open0930 == r.open <==> Opens(feed[f].1))
            && (o.high == r.high <==> forall j | f <= j < n && Skipped(feed[j].1) :: feed[j].1.high <= r.high)
            && (o.low == r.low <==> forall j | f <= j < n && Skipped(feed[j].1) :: r.low <= feed[j].1.low))
  {
    var bars := BarsOf(feed);
    StreamExtremes(feed, f, n);
    RestFoldIsExact(bars, n);
    assert forall j | 0 <= j < n :: bars[j] == feed[j].1;
    if x :| f <= x < n && Opens(feed[x].1) {
      assert Opens(bars[x]);
    }
    assert forall j | 0 <= j < n :: Opens(bars[j]) ==> f <= j;
    assert Opens(feed[f].1) || feed[f].1.open <= 0.0;
  }

  /** One bar without an open: the stream counts its volume, REST has no bars. */
  lemma SkippedBarCounts()
    ensures var feed := [(570, Bar(0.0, 1.0, 1.0, 1.0, 5.0))];
      RestFold(BarsOf(feed), 1) == NoBars && StreamFold(NO_OPENING, feed, 1).vol == 5.0
  {
    var feed := [(570, Bar(0.0, 1.0, 1.0, 1.0, 5.0))];
    assert RestFold(BarsOf(feed), 0) == NoBars && StreamFold(NO_OPENING, feed, 0) == NO_OPENING;
  }

  /** A skipped bar without volume: the volumes agree, the extremes do not. */
  lemma SkippedBarStretches()
    ensures var feed := [(570, Bar(10.0, 11.0, 9.0, 10.0, 5.0)), (571, Bar(0.0, 99.0, 1.0, 10.0, 0.0))];
      var o, r := StreamFold(NO_OPENING, feed, 2), RestFold(BarsOf(feed), 2);
      r == Found(10.0, 11.0, 9.0, 5.0) && o.vol == 5.0 && o.high == 99.0 && o.low == 1.0
  {
    var feed := [(570, Bar(10.0, 11.0, 9.0, 10.0, 5.0)), (571, Bar(0.0, 99.0, 1.0, 10.0, 0.0))];
    assert RestFold(BarsOf(feed), 0) == NoBars && StreamFold(NO_OPENING, feed, 0) == NO_OPENING;
    assert RestFold(BarsOf(feed), 1) == Found(10.0, 11.0, 9.0, 5.0);
    assert StreamFold(NO_OPENING, feed, 1) ==
      NO_OPENING.(open0930 := 10.0, high := 11.0, low := 9.0, vol := 5.0);
  }

  // ---- Session low and last close ----

  datatype LowClose = Unavailable | LowClose(low: real, lowIndex: nat, close: real)

  /** The first bar with the least positive low, and the last positive close; bar `i` starts `i` minutes in. */
  method MinLowAndLastClose(bars: seq<Bar>, failed: bool) returns (r: LowClose)
    ensures r.LowClose? <==>
      && !failed
      && (exists i | 0 <= i < |bars| :: bars[i].low > 0.0)
      && (exists i | 0 <= i < |bars| :: bars[i].close > 0.0)
    ensures r.LowClose? ==>
      && r.lowIndex < |bars| && 0.0 < r.low == bars[r.lowIndex].low
      && (forall i | 0 <= i < |bars| && bars[i].low > 0.0 :: r.low <= bars[i].low)
      && (forall i | 0 <= i < r.lowIndex && bars[i].low > 0.0 :: r.low < bars[i].low)
      && exists i | 0 <= i < |bars| ::
           0.0 < r.close == bars[i].close && forall j | i < j < |bars| :: bars[j].close <= 0.0
  {
    var minLow, lowIndex, lastClose := 0.0, 0, 0.0;
    ghost var at := 0;
    var idx := 0;
    while idx < |bars|
      invariant 0 <= idx <= |bars|
      invariant minLow == 0.0 ==> forall i | 0 <= i < idx :: bars[i].low <= 0.0
      invariant minLow != 0.0 ==> lowIndex < idx && 0.0 < minLow == bars[lowIndex].low
      invariant minLow != 0.0 ==> forall i | 0 <= i < idx && bars[i].low > 0.0 :: minLow <= bars[i].low
      invariant minLow != 0.0 ==> forall i | 0 <= i < lowIndex && bars[i].low > 0.0 :: minLow < bars[i].low
      invariant lastClose == 0.0 ==> forall i | 0 <= i < idx :: bars[i].close <= 0.0
      invariant lastClose != 0.0 ==>
        0 <= at < idx && 0.0 < lastClose == bars[at].close && forall j | at < j < idx :: bars[j].close <= 0.0
    {
      var a := bars[idx];
      if a.low > 0.0 {
        if minLow == 0.0 || a.low < minLow {
          minLow, lowIndex := a.low, idx;
        }
      }
      if a.close > 0.0 {
        lastClose, at := a.close, idx;
      }
      idx := idx + 1;
    }
    if failed || |bars| == 0 || minLow <= 0.0 || lastClose <= 0.0 {
      return Unavailable;
    }
    return LowClose(minLow, lowIndex, lastClose);
  }

  // ---- Opening volume of earlier sessions ----

  /** The usable volumes among the `n` days before today, most recent first. */
  function PriorVolumes(volume: int -> Option<real>, n: nat): seq<real> {
    if n == 0 then []
    else
      var v := volume(n);
      PriorVolumes(volume, n - 1) + if v.Some? && v.value > 0.0 then [v.value] else []
  }

  function Sum(s: seq<real>, n: nat): real
    requires n <= |s|
  {
    if n == 0 then 0.0 else Sum(s, n - 1) + s[n - 1]
  }

  lemma {:induction false} SumBounds(s: seq<real>, n: nat, lo: real, hi: real)
    requires n <= |s| && forall i | 0 <= i < n :: lo <= s[i] <= hi
    ensures Weighs(lo, Sum(s, n), hi, n as real)
  {
    if n > 0 {
      SumBounds(s, n - 1, lo, hi);
      WeightedStep(lo, s[n - 1], hi, 1.0, (n - 1) as real, Sum(s, n - 1), n as real, Sum(s, n));
      hide Weighs;
    }
  }

  /** The average opening volume lies between any bounds on the volumes it averages. */
  lemma AverageBounds(s: seq<real>, lo: real, hi: real)
    requires s != [] && forall i | 0 <= i < |s| :: lo <= s[i] <= hi
    ensures lo <= Sum(s, |s|) / |s| as real <= hi
  {
    SumBounds(s, |s|, lo, hi);
    MeanBounds(lo, Sum(s, |s|), hi, |s| as real);
  }

  /** Today's opening volume in percent of the average; 0 without one. */
  function PercentOf(vol: real, avg: real): real {
    if avg > 0.0 then vol / avg * 100.0 else 0.0
  }

  lemma PercentMeans(vol: real, avg: real, pct: real)
    ensures pct == PercentOf(vol, avg) <==> if avg > 0.0 then pct * avg == 100.0 * vol else pct == 0.0
  {
    if avg > 0.0 {
      var q := vol / avg;
      QuotientOrder(vol, avg, q);
      assert q * 100.0 * avg == 100.0 * (q * avg);
      if pct * avg == 100.0 * vol {
        assert pct / 100.0 * avg == vol;
        QuotientUnique(pct / 100.0, vol, avg);
      }
    }
  }

  predicate UsableDay(volume: int -> Option<real>, day: int) {
    volume(day).Some? && volume(day).value > 0.0
  }

  /** The most recent usable days of the lookback, most recent first, as many as needed or as there are. */
  ghost predicate MostRecent(volume: int -> Option<real>, needed: nat, lookback: nat, days: seq<int>) {
    && |days| <= needed
    && (forall i | 0 <= i < |days| :: 1 <= days[i] <= lookback && UsableDay(volume, days[i]))
    && (forall i, j | 0 <= i < j < |days| :: days[i] < days[j])
    && (forall d | 1 <= d <= lookback && UsableDay(volume, d) && d !in days ::
          |days| == needed && forall i | 0 <= i < |days| :: days[i] < d)
  }

  ghost function TotalOf(volume: int -> Option<real>, days: seq<int>): real {
    if days == [] then 0.0
    else
      var v := volume(days[|days| - 1]);
      TotalOf(volume, days[..|days| - 1]) + if v.Some? then v.value else 0.0
  }

  lemma {:induction false} SumPrefix(s: seq<real>, t: seq<real>, n: nat)
    requires n <= |s| && s <= t
    ensures Sum(t, n) == Sum(s, n)
  {
    if n > 0 {
      SumPrefix(s, t, n - 1);
    }
  }

  lemma SumSnoc(s: seq<real>, v: real)
    ensures Sum(s + [v], |s| + 1) == Sum(s, |s|) + v
  {
    SumPrefix(s, s + [v], |s|);
  }

  /** The average is that of these days. */
  ghost predicate AverageOver(volume: int -> Option<real>, days: seq<int>, avg: Option<real>) {
    if days == [] then avg.None?
    else avg.Some? && avg.value * |days| as real == TotalOf(volume, days)
  }

  ghost predicate Uses(volume: int -> Option<real>, needed: nat, n: nat, days: seq<int>) {
    var used := Newest(PriorVolumes(volume, n), needed);
    MostRecent(volume, needed, n, days) && |used| == |days| && SameTotal(volume, days, used)
  }

  ghost predicate SameTotal(volume: int -> Option<real>, days: seq<int>, used: seq<real>) {
    Sum(used, |used|) == TotalOf(volume, days)
  }

  lemma SameTotalMore(volume: int -> Option<real>, days: seq<int>, used: seq<real>, day: int)
    requires SameTotal(volume, days, used) && UsableDay(volume, day)
    ensures SameTotal(volume, days + [day], used + [volume(day).value])
  {
    SumSnoc(used, volume(day).value);
    hide Sum, TotalOf;
  }

  lemma MostRecentMore(volume: int -> Option<real>, needed: nat, n: nat, days: seq<int>)
    requires n > 0 && MostRecent(volume, needed, n - 1, days)
    ensures MostRecent(volume, needed, n, if UsableDay(volume, n) && |days| < needed then days + [n] else days)
  {
    if UsableDay(volume, n) && |days| < needed {
      var more := days + [n];
      assert forall d :: d in more <==> d in days || d == n;
      hide UsableDay;
    } else {
      hide UsableDay;
    }
  }

  lemma NewestMore(volume: int -> Option<real>, needed: nat, n: nat)
    requires n > 0
    ensures
      var before := Newest(PriorVolumes(volume, n - 1), needed);
      Newest(PriorVolumes(volume, n), needed) ==
        if UsableDay(volume, n) && |before| < needed then before + [volume(n).value] else before
  {
  }

  /** One more day of the lookback is used if it is usable and still needed. */
  lemma UsesMore(volume: int -> Option<real>, needed: nat, n: nat, days: seq<int>)
    requires n > 0 && Uses(volume, needed, n - 1, days)
    ensures Uses(volume, needed, n, if UsableDay(volume, n) && |days| < needed then days + [n] else days)
  {
    var before, after := Newest(PriorVolumes(volume, n - 1), needed), Newest(PriorVolumes(volume, n), needed);
    MostRecentMore(volume, needed, n, days);
    NewestMore(volume, needed, n);
    hide MostRecent, Newest, PriorVolumes, SameTotal;
    if UsableDay(volume, n) && |days| < needed {
      SameTotalMore(volume, days, before, n);
      hide UsableDay;
    }
  }

  lemma {:induction false} UsesSome(volume: int -> Option<real>, needed: nat, n: nat)
    ensures exists days :: Uses(volume, needed, n, days)
  {
    if n == 0 {
      assert Uses(volume, needed, 0, []);
    } else {
      UsesSome(volume, needed, n - 1);
      var days :| Uses(volume, needed, n - 1, days);
      UsesMore(volume, needed, n, days);
    }
  }

  lemma UsesMean(volume: int -> Option<real>, needed: nat, n: nat, days: seq<int>)
    requires Uses(volume, needed, n, days)
    ensures MostRecent(volume, needed, n, days)
    ensures var used := Newest(PriorVolumes(volume, n), needed);
      AverageOver(volume, days, if used == [] then None else Some(Sum(used, |used|) / |used| as real))
  {
    hide MostRecent, Newest, PriorVolumes, Sum, TotalOf;
    if days != [] {
      var used := Newest(PriorVolumes(volume, n), needed);
      hide AverageOver;
    }
  }

  /** The code's average is the mean over the most recent usable days. */
  lemma AverageIsMean(volume: int -> Option<real>, needed: nat, lookback: nat, avg: Option<real>)
    requires var used := Newest(PriorVolumes(volume, lookback), needed);
      avg == if used == [] then None else Some(Sum(used, |used|) / |used| as real)
    ensures exists days :: MostRecent(volume, needed, lookback, days) && AverageOver(volume, days, avg)
  {
    hide *;
    UsesSome(volume, needed, lookback);
    var days :| Uses(volume, needed, lookback, days);
    UsesMean(volume, needed, lookback, days);
  }

  lemma {:induction false} PriorGrows(volume: int -> Option<real>, n: nat, m: nat)
    requires n <= m
    ensures PriorVolumes(volume, n) <= PriorVolumes(volume, m)
  {
    if n < m {
      PriorGrows(volume, n, m - 1);
    }
  }

  function Newest(s: seq<real>, n: nat): seq<real> {
    if |s| <= n then s else s[..n]
  }

  /** The mean over the `needed` most recent usable sessions of the lookback, or over as many as there are. */
  method AvgPrevSessions(volume: int -> Option<real>, needed: nat, lookback: nat) returns (avg: Option<real>)
    ensures var used := Newest(PriorVolumes(volume, lookback), needed);
      avg == if used == [] then None else Some(Sum(used, |used|) / |used| as real)
    ensures exists days :: MostRecent(volume, needed, lookback, days) && AverageOver(volume, days, avg)
  {
    var vols: seq<real> := [];
    var back := 1;
    while back <= lookback && |vols| < needed
      invariant 1 <= back <= lookback + 1
      invariant |vols| <= needed
      invariant vols == PriorVolumes(volume, back - 1)
    {
      var v := volume(back);
      back := back + 1;
      if v.None? || v.value <= 0.0 {
        continue;
      }
      vols := vols + [v.value];
    }
    PriorGrows(volume, back - 1, lookback);
    assert vols == Newest(PriorVolumes(volume, lookback), needed);
    if |vols| == 0 {
      AverageIsMean(volume, needed, lookback, None);
      return None;
    }
    var sum, i := 0.0, 0;
    while i < |vols|
      invariant 0 <= i <= |vols| && sum == Sum(vols, i)
    {
      sum := sum + vols[i];
      i := i + 1;
    }
    avg := Some(sum / |vols| as real);
    AverageIsMean(volume, needed, lookback, avg);
  }
}
