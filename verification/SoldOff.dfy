/**
 The sold-off scan: two fan-out stages, the second over the survivors of the first,
 and a list ordered by drop.  `ScanMeetsSpec` says which rows the list holds, whatever
 the two schedules.
 */
module SoldOff {
  import opened Wrappers
  import opened Tape
  import opened Reals
  import opened Sorting
  import Fanout
  import OpenRange

  datatype Metric = Metric(open: real, vol: real, range: real)

  /** A survivor of the first stage. */
  datatype Pre = Pre(m: Metric, low: real, lowIndex: nat, last: real, drop: real)

  /** The second stage's result: today's opening volume in percent of the average, or an error. */
  datatype Today = Failed | Today(pct: real)

  datatype Row = Row(
    symbol: string, open: real, low: real, lowIndex: nat, last: real, drop: real,
    vol: real, range: real, todayPct: real)

  predicate InScope(f: Filters, m: Metric) {
    m.open > 0.0 && m.vol > 0.0 && m.range >= f.soldRangeMin
  }

  function Survivor(f: Filters, metrics: map<string, Metric>)
    : ((string, OpenRange.LowClose), Option<Pre>) -> Option<Pre>
  {
    (p: (string, OpenRange.LowClose), before: Option<Pre>) =>
      if p.1.Unavailable? || p.0 !in metrics then None
      else
        var m := metrics[p.0];
        if m.open <= 0.0 || p.1.low <= 0.0 then None
        else
          var drop := (m.open - p.1.low) / m.open;
          if drop < f.dropMin then None else Some(Pre(m, p.1.low, p.1.lowIndex, p.1.close, drop))
  }

  function TodayOf(vol: real, avg: Option<real>): Today {
    match avg
    case None => Failed
    case Some(a) => Today(OpenRange.PercentOf(vol, a))
  }

  /** What a second-stage worker answers for a survivor. */
  function TodayFor(pre: map<string, Pre>, avg: string -> Option<real>): string -> Today {
    (sym: string) => if sym in pre then TodayOf(pre[sym].m.vol, avg(sym)) else Failed
  }

  function RowFor(f: Filters, pre: map<string, Pre>): ((string, Today)) -> Option<Row> {
    (p: (string, Today)) =>
      if p.1.Failed? || p.1.pct < f.soldTodayMin || p.0 !in pre then None
      else
        var x := pre[p.0];
        Some(Row(p.0, x.m.open, x.low, x.lowIndex, x.last, x.drop, x.m.vol, x.m.range, p.1.pct))
  }

  predicate DeeperDrop(a: Row, b: Row) {
    a.drop > b.drop || (a.drop == b.drop && StringLe(a.symbol, b.symbol))
  }

  lemma DeeperDropOrder()
    ensures Total(DeeperDrop) && Transitive(DeeperDrop)
  {
    forall a, b ensures DeeperDrop(a, b) || DeeperDrop(b, a) {
      StringLeTotal(a.symbol, b.symbol);
    }
    forall a, b, c | DeeperDrop(a, b) && DeeperDrop(b, c) ensures DeeperDrop(a, c) {
      if a.drop == b.drop == c.drop {
        StringLeTransitive(a.symbol, b.symbol, c.symbol);
      }
    }
  }

  /** By drop, deepest first, then by symbol. */
  function SortRows(rows: seq<Row>): (r: seq<Row>)
    ensures Sorted(DeeperDrop, r) && multiset(r) == multiset(rows)
  {
    DeeperDropOrder();
    Sort(DeeperDrop, rows)
  }

  /** What the scan uses of the opening figures; tickers without them are not looked at. */
  function MetricsOf(m: map<string, Ticker>, wl: seq<string>): map<string, Metric> {
    map s | s in wl && s in m && Complete(m[s].opening) :: MetricOf(m[s].opening)
  }

  predicate Complete(o: Opening) {
    o.open0930 > 0.0 && o.high > 0.0 && o.low > 0.0 && o.vol > 0.0
  }

  function MetricOf(o: Opening): Metric
    requires Complete(o)
  {
    Metric(o.open0930, o.vol, (o.high - o.low) / o.open0930)
  }

  /** Exactly the tickers of the watchlist with all figures, with the range as a fraction of the open. */
  lemma MetricsAre(m: map<string, Ticker>, wl: seq<string>, s: string)
    ensures s in MetricsOf(m, wl) <==>
      && s in wl && s in m
      && var o := m[s].opening; o.open0930 > 0.0 && o.high > 0.0 && o.low > 0.0 && o.vol > 0.0
    ensures s in MetricsOf(m, wl) ==>
      var x, o := MetricsOf(m, wl)[s], m[s].opening;
      x.open == o.open0930 && x.vol == o.vol && x.range * x.open == o.high - o.low
  {
    if s in MetricsOf(m, wl) {
      var o := m[s].opening;
      QuotientOrder(o.high - o.low, o.open0930, 0.0);
    }
  }

  /** The keys of the map that pass, sorted. */
  method Scope(f: Filters, metrics: map<string, Metric>) returns (syms: seq<string>)
    ensures Sorted(StringLe, syms) && Distinct(syms)
    ensures forall s :: s in syms <==> s in metrics && InScope(f, metrics[s])
  {
    var left, listed: seq<string> := metrics.Keys, [];
    while left != {}
      invariant left <= metrics.Keys && Distinct(listed)
      invariant forall s :: s in listed <==> s in metrics.Keys - left && InScope(f, metrics[s])
      decreases |left|
    {
      var sym :| sym in left;
      left := left - {sym};
      var m := metrics[sym];
      assert forall i | 0 <= i < |listed| :: listed[i] in listed;
      if m.open <= 0.0 || m.vol <= 0.0 {
        continue;
      }
      if m.range < f.soldRangeMin {
        continue;
      }
      listed := listed + [sym];
    }
    syms := SortSymbols(listed);
    Fanout.SortKeepsDistinct(listed, syms);
  }

  method FirstStage(f: Filters, metrics: map<string, Metric>, got: seq<(string, OpenRange.LowClose)>)
    returns (pre: map<string, Pre>)
    ensures pre == Fanout.Fold(map[], got, |got|, Fanout.Key, Survivor(f, metrics))
  {
    pre := map[];
    var i := 0;
    while i < |got|
      invariant 0 <= i <= |got|
      invariant pre == Fanout.Fold(map[], got, i, Fanout.Key, Survivor(f, metrics))
    {
      var (sym, r) := got[i];
      i := i + 1;
      if r.Unavailable? {
        continue;
      }
      if sym !in metrics {
        continue;
      }
      var m := metrics[sym];
      if m.open <= 0.0 || r.low <= 0.0 {
        continue;
      }
      var drop := (m.open - r.low) / m.open;
      if drop < f.dropMin {
        continue;
      }
      pre := pre[sym := Pre(m, r.low, r.lowIndex, r.close, drop)];
    }
  }

  method SecondStage(f: Filters, pre: map<string, Pre>, got: seq<(string, Today)>) returns (out: seq<Row>)
    ensures out == SortRows(Fanout.Listed(got, RowFor(f, pre)))
  {
    var rows: seq<Row> := [];
    var i := 0;
    while i < |got|
      invariant 0 <= i <= |got|
      invariant rows == Fanout.Listed(got[..i], RowFor(f, pre))
    {
      assert got[..i + 1][..i] == got[..i];
      var (sym, r) := got[i];
      i := i + 1;
      if r.Failed? {
        continue;
      }
      if r.pct < f.soldTodayMin || sym !in pre {
        continue;
      }
      var p := pre[sym];
      rows := rows + [Row(sym, p.m.open, p.low, p.lowIndex, p.last, p.drop, p.m.vol, p.m.range, r.pct)];
    }
    assert got[..i] == got;
    out := SortRows(rows);
  }

  // ---- Which rows ----

  /** All four tests at once, on the symbol's own data, with the ratios multiplied out. */
  ghost predicate Qualifies(
    f: Filters, metrics: map<string, Metric>, scan: string -> OpenRange.LowClose, avg: string -> Option<real>, row: Row)
  {
    var s := row.symbol;
    && s in metrics && scan(s).LowClose? && avg(s).Some?
    && var m, x, a := metrics[s], scan(s), avg(s).value;
    && m.open > 0.0 && m.vol > 0.0 && m.range >= f.soldRangeMin && x.low > 0.0
    && row.open == m.open && row.vol == m.vol && row.range == m.range
    && row.low == x.low && row.lowIndex == x.lowIndex && row.last == x.close
    && row.drop * m.open == m.open - x.low && row.drop >= f.dropMin
    && (if a > 0.0 then row.todayPct * a == 100.0 * m.vol else row.todayPct == 0.0)
    && row.todayPct >= f.soldTodayMin
  }

  /** The row as the two stages compute it. */
  ghost predicate Passes(
    f: Filters, metrics: map<string, Metric>, scan: string -> OpenRange.LowClose, avg: string -> Option<real>, row: Row)
  {
    var s := row.symbol;
    && s in metrics && InScope(f, metrics[s])
    && scan(s).LowClose? && scan(s).low > 0.0
    && avg(s).Some?
    && row == Row(s, metrics[s].open, scan(s).low, scan(s).lowIndex, scan(s).close,
                  (metrics[s].open - scan(s).low) / metrics[s].open, metrics[s].vol, metrics[s].range,
                  TodayOf(metrics[s].vol, avg(s)).pct)
    && row.drop >= f.dropMin
    && row.todayPct >= f.soldTodayMin
  }

  lemma PassesIs(
    f: Filters, metrics: map<string, Metric>, scan: string -> OpenRange.LowClose, avg: string -> Option<real>, row: Row)
    ensures Passes(f, metrics, scan, avg, row) <==> Qualifies(f, metrics, scan, avg, row)
  {
    var s := row.symbol;
    if s in metrics && scan(s).LowClose? && avg(s).Some? && metrics[s].open > 0.0 {
      QuotientIs(row.drop, metrics[s].open - scan(s).low, metrics[s].open);
      OpenRange.PercentMeans(metrics[s].vol, avg(s).value, row.todayPct);
      hide OpenRange.PercentOf;
    }
  }

  /** The survivors are the symbols whose own scan passes the drop test. */
  lemma {:induction false} SurvivorsAre(
    f: Filters, metrics: map<string, Metric>, scan: string -> OpenRange.LowClose,
    syms: seq<string>, got: seq<(string, OpenRange.LowClose)>)
    requires Fanout.OnceEach(syms, scan, got)
    ensures
      var pre := Fanout.Fold(map[], got, |got|, Fanout.Key, Survivor(f, metrics));
      forall s: string ::
        Fanout.Lookup(pre, s) == if s in syms then Survivor(f, metrics)((s, scan(s)), None) else None
  {
    var apply := Survivor(f, metrics);
    forall s: string
      ensures Fanout.Lookup(Fanout.Fold(map[], got, |got|, Fanout.Key, apply), s)
        == if s in syms then apply((s, scan(s)), None) else None
    {
      Fanout.CollectedAt(syms, scan, got, map[], apply, s);
    }
  }

  /** One row is listed exactly if its symbol passes all four tests. */
  lemma RowQualifies(
    f: Filters, metrics: map<string, Metric>, scan: string -> OpenRange.LowClose, avg: string -> Option<real>,
    pre: map<string, Pre>, got: seq<(string, Today)>, row: Row)
    requires var s := row.symbol;
      Fanout.Lookup(pre, s) ==
        if s in metrics && InScope(f, metrics[s]) then Survivor(f, metrics)((s, scan(s)), None) else None
    requires forall p :: p in got <==> p.0 in pre && p.1 == TodayOf(pre[p.0].m.vol, avg(p.0))
    ensures row in Fanout.Listed(got, RowFor(f, pre)) <==> Qualifies(f, metrics, scan, avg, row)
  {
    var s := row.symbol;
    PassesIs(f, metrics, scan, avg, row);
    hide Qualifies;
    Fanout.ListedMembers(got, RowFor(f, pre), row);
    if s in pre {
      var p := (s, TodayOf(pre[s].m.vol, avg(s)));
      assert p in got;
      assert RowFor(f, pre)(p) == Some(row) <==> Passes(f, metrics, scan, avg, row);
    }
  }

  function SymbolOf(row: Row): string { row.symbol }

  lemma {:induction false} ListedDistinct(f: Filters, pre: map<string, Pre>, got: seq<(string, Today)>)
    requires Fanout.DistinctKeys(got, Fanout.Key)
    ensures Fanout.DistinctKeys(Fanout.Listed(got, RowFor(f, pre)), SymbolOf)
  {
    if got != [] {
      var front := got[..|got| - 1];
      ListedDistinct(f, pre, front);
      var rows := Fanout.Listed(front, RowFor(f, pre));
      forall i | 0 <= i < |rows| ensures rows[i].symbol != got[|got| - 1].0 {
        Fanout.ListedMembers(front, RowFor(f, pre), rows[i]);
      }
    }
  }

  lemma SameRowsOnce(a: seq<Row>, b: seq<Row>)
    requires Fanout.DistinctKeys(a, SymbolOf) && Fanout.DistinctKeys(b, SymbolOf)
    requires forall row :: row in a <==> row in b
    ensures multiset(a) == multiset(b)
  {
    forall row ensures multiset(a)[row] == multiset(b)[row] {
      if row in a {
        Fanout.OnceMeansOne(a, row, SymbolOf);
        Fanout.OnceMeansOne(b, row, SymbolOf);
      }
    }
  }

  /** The scan's output as a predicate of the data alone. */
  ghost predicate ScanOutput(
    f: Filters, metrics: map<string, Metric>, scan: string -> OpenRange.LowClose, avg: string -> Option<real>,
    out: seq<Row>)
  {
    && (forall i, j | 0 <= i < j < |out| ::
          out[i].drop >= out[j].drop && (out[i].drop == out[j].drop ==> StringLe(out[i].symbol, out[j].symbol)))
    && Fanout.DistinctKeys(out, SymbolOf)
    && forall row :: row in out <==> Qualifies(f, metrics, scan, avg, row)
  }

  /** That predicate leaves one list, so the output does not depend on the schedules or the number of workers. */
  lemma ScanOutputUnique(
    f: Filters, metrics: map<string, Metric>, scan: string -> OpenRange.LowClose, avg: string -> Option<real>,
    a: seq<Row>, b: seq<Row>)
    requires ScanOutput(f, metrics, scan, avg, a) && ScanOutput(f, metrics, scan, avg, b)
    ensures a == b
  {
    forall row ensures row in a <==> row in b {
      assert row in a <==> Qualifies(f, metrics, scan, avg, row);
    }
    SameRowsOnce(a, b);
    DeeperDropOrder();
    forall x, y | x in a && y in a && DeeperDrop(x, y) && DeeperDrop(y, x) ensures x == y {
      StringLeAntiSymmetric(x.symbol, y.symbol);
      var i, j :| 0 <= i < |a| && 0 <= j < |a| && a[i] == x && a[j] == y;
      assert SymbolOf(a[i]) == SymbolOf(a[j]);
    }
    SortedUnique(DeeperDrop, a, b);
  }

  /** The two stages, over the symbols in scope and over the survivors, produce that list. */
  lemma {:induction false} ScanMeetsSpec(
    f: Filters, metrics: map<string, Metric>, scan: string -> OpenRange.LowClose, avg: string -> Option<real>,
    syms: seq<string>, got1: seq<(string, OpenRange.LowClose)>,
    survivors: seq<string>, today: string -> Today, got2: seq<(string, Today)>)
    requires Fanout.OnceEach(syms, scan, got1) && Fanout.OnceEach(survivors, today, got2)
    requires forall s :: s in syms <==> s in metrics && InScope(f, metrics[s])
    requires
      var pre := Fanout.Fold(map[], got1, |got1|, Fanout.Key, Survivor(f, metrics));
      Fanout.Lists(survivors, pre) && forall s | s in pre :: today(s) == TodayOf(pre[s].m.vol, avg(s))
    ensures
      var pre := Fanout.Fold(map[], got1, |got1|, Fanout.Key, Survivor(f, metrics));
      ScanOutput(f, metrics, scan, avg, SortRows(Fanout.Listed(got2, RowFor(f, pre))))
  {
    var pre := Fanout.Fold(map[], got1, |got1|, Fanout.Key, Survivor(f, metrics));
    var rows := Fanout.Listed(got2, RowFor(f, pre));
    var out := SortRows(rows);
    SurvivorsAre(f, metrics, scan, syms, got1);
    ListedDistinct(f, pre, got2);
    Fanout.KeysOfPermutation(rows, out, SymbolOf);
    forall row ensures row in out <==> Qualifies(f, metrics, scan, avg, row) {
      assert row in out <==> row in multiset(rows);
      assert Fanout.Lookup(pre, row.symbol) ==
        if row.symbol in syms then Survivor(f, metrics)((row.symbol, scan(row.symbol)), None) else None;
      RowQualifies(f, metrics, scan, avg, pre, got2, row);
    }
  }

  /** With nothing in scope, or no survivor, there is nothing to list. */
  lemma {:induction false} NothingToList(
    f: Filters, metrics: map<string, Metric>, scan: string -> OpenRange.LowClose, avg: string -> Option<real>,
    syms: seq<string>, got: seq<(string, OpenRange.LowClose)>)
    requires Fanout.OnceEach(syms, scan, got)
    requires forall s :: s in syms <==> s in metrics && InScope(f, metrics[s])
    requires Fanout.Fold(map[], got, |got|, Fanout.Key, Survivor(f, metrics)) == map[]
    ensures ScanOutput(f, metrics, scan, avg, [])
  {
    hide Survivor, RowFor, InScope, ScanOutput;
    ScanMeetsSpec(f, metrics, scan, avg, syms, got, [], (s: string) => Failed, []);
  }

  lemma NobodyAsked(
    f: Filters, metrics: map<string, Metric>, scan: string -> OpenRange.LowClose, avg: string -> Option<real>,
    syms: seq<string>)
    requires syms == [] && forall s :: s in syms <==> s in metrics && InScope(f, metrics[s])
    ensures ScanOutput(f, metrics, scan, avg, [])
  {
    NothingToList(f, metrics, scan, avg, syms, []);
  }
}
