/**
 What a whole tape of trades amounts to for one ticker, stated without stepping:
 sums over the tape, the least crossing, the least eligible entry, the least exit
 trigger and the first extremes after the entry.  `RunMeetsSpec` equates the
 step-by-step machine of module `Tape` with this description.
 */
module Lifecycle {
  import opened Wrappers
  import opened Tape
  import opened Reals

  ghost predicate AllAccepted(c: Clock, a: seq<Tick>) {
    forall i | 0 <= i < |a| :: Accepts(c, a[i])
  }

  ghost predicate Chronological(a: seq<Tick>) {
    forall i, j | 0 <= i < j < |a| :: a[i].time <= a[j].time
  }

  // ---- Volume-weighted average price ----

  ghost function PV(a: seq<Tick>, n: nat): real
    requires n <= |a|
  {
    if n == 0 then 0.0 else PV(a, n - 1) + a[n - 1].price * a[n - 1].size
  }

  ghost function V(a: seq<Tick>, n: nat): real
    requires n <= |a|
  {
    if n == 0 then 0.0 else V(a, n - 1) + a[n - 1].size
  }

  lemma {:induction false} VolumePositive(c: Clock, a: seq<Tick>, n: nat)
    requires n <= |a| && AllAccepted(c, a)
    ensures V(a, n) >= 0.0 && (n > 0 ==> V(a, n) > 0.0)
  {
    if n > 0 {
      VolumePositive(c, a, n - 1);
    }
  }

  /** The exact VWAP of the first `n` trades; 0 before the first. */
  ghost function Vwap(a: seq<Tick>, n: nat): real
    requires n <= |a|
  {
    if n == 0 || V(a, n) <= 0.0 then 0.0 else PV(a, n) / V(a, n)
  }

  lemma ValueBoundsStep(a: seq<Tick>, n: nat, lo: real, hi: real)
    requires 0 < n <= |a| && a[n - 1].size > 0.0 && lo <= a[n - 1].price <= hi
    requires Weighs(lo, PV(a, n - 1), hi, V(a, n - 1))
    ensures Weighs(lo, PV(a, n), hi, V(a, n))
  {
    var k := a[n - 1];
    WeightedStep(lo, k.price, hi, k.size, V(a, n - 1), PV(a, n - 1), V(a, n), PV(a, n));
  }

  lemma {:induction false} ValueBounds(c: Clock, a: seq<Tick>, n: nat, lo: real, hi: real)
    requires n <= |a| && AllAccepted(c, a)
    requires forall i | 0 <= i < n :: lo <= a[i].price <= hi
    ensures Weighs(lo, PV(a, n), hi, V(a, n))
  {
    if n > 0 {
      assert Accepts(c, a[n - 1]);
      hide Weighs, PV, V, Accepts, AllAccepted;
      ValueBounds(c, a, n - 1, lo, hi);
      ValueBoundsStep(a, n, lo, hi);
    }
  }

  /** VWAP lies between any bounds on the prices it averages, hence is positive. */
  lemma VwapBounds(c: Clock, a: seq<Tick>, n: nat, lo: real, hi: real)
    requires 0 < n <= |a| && AllAccepted(c, a)
    requires forall i | 0 <= i < n :: lo <= a[i].price <= hi
    ensures lo <= Vwap(a, n) <= hi
  {
    ValueBounds(c, a, n, lo, hi);
    VolumePositive(c, a, n);
    MeanBounds(lo, PV(a, n), hi, V(a, n));
  }

  lemma {:induction false} ValuePositive(c: Clock, a: seq<Tick>, n: nat)
    requires n <= |a| && AllAccepted(c, a)
    ensures PV(a, n) >= 0.0 && (n > 0 ==> PV(a, n) > 0.0)
  {
    if n > 0 {
      ValuePositive(c, a, n - 1);
      assert a[n - 1].price * a[n - 1].size > 0.0;
    }
  }

  lemma VwapPositive(c: Clock, a: seq<Tick>, n: nat)
    requires 0 < n <= |a| && AllAccepted(c, a)
    ensures Vwap(a, n) > 0.0
  {
    VolumePositive(c, a, n);
    ValuePositive(c, a, n);
    assert PV(a, n) / V(a, n) > 0.0;
  }

  /** Comparing a trade with the VWAP that already contains it is comparing it with the VWAP before it. */
  lemma VwapTestEquivalent(c: Clock, a: seq<Tick>, i: nat)
    requires 0 < i < |a| && AllAccepted(c, a)
    ensures a[i].price >= Vwap(a, i + 1) <==> a[i].price >= Vwap(a, i)
  {
    VolumePositive(c, a, i);
    VolumePositive(c, a, i + 1);
  }

  // ---- Crossing, entry, exit ----

  /** The least index in `[lo, n)` with the property. */
  ghost function Least(p: nat -> bool, lo: nat, n: nat): (r: Option<nat>)
    ensures r.Some? ==> lo <= r.value < n && p(r.value) && forall i | lo <= i < r.value :: !p(i)
    ensures r.None? ==> forall i | lo <= i < n :: !p(i)
    decreases n
  {
    if n <= lo then None
    else
      var q := Least(p, lo, n - 1);
      if q.Some? then q else if p(n - 1) then Some(n - 1) else None
  }

  /** The description measures minutes since the open by itself, as it does the filters below. */
  ghost function Elapsed(c: Clock, time: int): real {
    (time - c.open) as real / 60000.0
  }

  ghost predicate Between(lo: real, x: real, hi: real) { lo <= x && x <= hi }

  /** Every filter admits its figure; the entry window includes its last minute but for a millisecond. */
  ghost predicate Admits(f: Filters, o: Opening, minutes: real, price: real) {
    && Between(f.entryMin as real, minutes, f.entryMax as real + 0.999)
    && Between(f.rangeMin, o.rangePct, f.rangeMax)
    && Between(f.volMin, o.vol, f.volMax)
    && Between(f.todayMin, o.todayPct, f.todayMax)
    && Between(f.priceMin, price, f.priceMax)
  }

  /** Two adjacent trades step from below the VWAP to at or above it, inside the cross window. */
  ghost predicate CrossesAt(c: Clock, a: seq<Tick>, i: nat) {
    && 0 < i < |a|
    && a[i - 1].price < Vwap(a, i) <= a[i].price
    && c.open + 60000 <= a[i].time < c.cutoff
  }

  ghost function Crossing(c: Clock, a: seq<Tick>): nat -> bool {
    (i: nat) => CrossesAt(c, a, i)
  }

  /** A trade at which an entry is allowed: window, filters, at or above VWAP, a cross at or before it. */
  ghost predicate EligibleAt(c: Clock, o: Opening, a: seq<Tick>, i: nat) {
    && i < |a| && a[i].allow
    && c.sel <= a[i].time < c.cutoff
    && Admits(a[i].filters, o, Elapsed(c, a[i].time), a[i].price)
    && a[i].price >= Vwap(a, i + 1)
    && exists x: nat | x <= i :: CrossesAt(c, a, x)
  }

  ghost function Eligible(c: Clock, o: Opening, a: seq<Tick>): nat -> bool {
    (i: nat) => EligibleAt(c, o, a, i)
  }

  ghost function Target(r: Risk, entry: real): real { entry * (1.0 + r.takeProfit) }

  ghost function StopLevel(r: Risk, entry: real): real { entry * (1.0 - r.stopLoss) }

  /** Trade `j` is at or beyond a level of the position entered at trade `e`. */
  ghost predicate TriggersAt(r: Risk, a: seq<Tick>, e: nat, j: nat) {
    && e < j < |a| && a[j].allow
    && (a[j].price >= Target(r, a[e].price) || a[j].price <= StopLevel(r, a[e].price))
  }

  ghost function Triggering(r: Risk, a: seq<Tick>, e: nat): nat -> bool {
    (j: nat) => TriggersAt(r, a, e, j)
  }

  ghost function FirstCross(c: Clock, a: seq<Tick>, n: nat): Option<nat> {
    Least(Crossing(c, a), 0, n)
  }

  ghost function FirstEntry(c: Clock, o: Opening, a: seq<Tick>, n: nat): Option<nat> {
    Least(Eligible(c, o, a), 0, n)
  }

  ghost function FirstExit(r: Risk, a: seq<Tick>, e: nat, n: nat): Option<nat> {
    Least(Triggering(r, a, e), e + 1, n)
  }

  ghost function ExitReason(r: Risk, a: seq<Tick>, e: nat, x: nat): Label
    requires e < |a| && x < |a|
  {
    if a[x].price >= Target(r, a[e].price) then Profit else Stop
  }

  /** The first highest price among trade `e` and the trades up to `n` not stamped before it. */
  ghost function Peak(a: seq<Tick>, e: nat, n: nat): (p: nat)
    requires e < n <= |a|
    ensures e <= p < n && a[p].time >= a[e].time
    ensures forall j | e <= j < n && a[j].time >= a[e].time :: a[j].price <= a[p].price
    ensures forall j | e <= j < p && a[j].time >= a[e].time :: a[j].price < a[p].price
  {
    if n == e + 1 then e
    else
      var p := Peak(a, e, n - 1);
      if a[n - 1].time >= a[e].time && a[n - 1].price > a[p].price then n - 1 else p
  }

  /** The first lowest price, likewise. */
  ghost function Trough(a: seq<Tick>, e: nat, n: nat): (p: nat)
    requires e < n <= |a|
    ensures e <= p < n && a[p].time >= a[e].time
    ensures forall j | e <= j < n && a[j].time >= a[e].time :: a[j].price >= a[p].price
    ensures forall j | e <= j < p && a[j].time >= a[e].time :: a[j].price > a[p].price
  {
    if n == e + 1 then e
    else
      var p := Trough(a, e, n - 1);
      if a[n - 1].time >= a[e].time && a[n - 1].price < a[p].price then n - 1 else p
  }

  // ---- The description of the whole ticker ----

  ghost function ExpectedMarket(c: Clock, a: seq<Tick>, n: nat): Market
    requires n <= |a|
  {
    if n == 0 then NO_MARKET
    else Market(PV(a, n), V(a, n), Vwap(a, n), a[n - 1].price, Some(a[n - 1].time),
                if n == 1 then 0.0 else a[n - 2].price, Vwap(a, n - 1), Elapsed(c, a[n - 1].time))
  }

  ghost function ExpectedCross(c: Clock, a: seq<Tick>, n: nat): Cross
    requires n <= |a|
  {
    match FirstCross(c, a, n)
    case None => NO_CROSS
    case Some(i) => Cross(true, Some(a[i].time), a[i].price)
  }

  ghost function ExpectedPosition(c: Clock, r: Risk, o: Opening, a: seq<Tick>, n: nat): Position
    requires n <= |a|
  {
    match FirstEntry(c, o, a, n)
    case None => FLAT
    case Some(e) =>
      var p := Position(
        true, a[e].price, Some(a[e].time), Elapsed(c, a[e].time), Target(r, a[e].price), StopLevel(r, a[e].price),
        false, Unset, 0.0, None, 0.0);
      match FirstExit(r, a, e, n)
      case None => p
      case Some(x) =>
        p.(exited := true, reason := ExitReason(r, a, e, x),
           exitPrice := a[x].price, exitTime := Some(a[x].time), exitMinutes := Elapsed(c, a[x].time))
  }

  ghost function Extremes(a: seq<Tick>, e: nat, n: nat): Excursion
    requires e < n <= |a|
  {
    var hi, lo := Peak(a, e, n), Trough(a, e, n);
    Excursion(a[hi].price, Some(a[hi].time), a[lo].price, Some(a[lo].time))
  }

  ghost function ExpectedExcursion(c: Clock, o: Opening, a: seq<Tick>, n: nat): Excursion
    requires n <= |a|
  {
    match FirstEntry(c, o, a, n)
    case None => NO_EXCURSION
    case Some(e) =>
      Extremes(a, e, n)
  }

  ghost function ExpectedStatus(t: Ticker, p: Position): Label {
    if p.exited then p.reason else if p.held then Long else t.status
  }

  ghost function Expected(c: Clock, r: Risk, t: Ticker, a: seq<Tick>, n: nat): Ticker
    requires n <= |a|
  {
    var p := ExpectedPosition(c, r, t.opening, a, n);
    Ticker(t.symbol, t.opening, ExpectedMarket(c, a, n), ExpectedCross(c, a, n), p,
           ExpectedExcursion(c, t.opening, a, n), ExpectedStatus(t, p))
  }

  /** One BUY at the entry, then one exit event; nothing else. */
  ghost function ExpectedEvents(c: Clock, r: Risk, t: Ticker, a: seq<Tick>, n: nat): seq<Event>
    requires n <= |a|
  {
    match FirstEntry(c, t.opening, a, n)
    case None => []
    case Some(e) =>
      [Event(Buy, t.symbol, a[e].time)] +
      match FirstExit(r, a, e, n)
      case None => []
      case Some(x) => [Event(ExitReason(r, a, e, x), t.symbol, a[x].time)]
  }

  // ---- One step of the description ----

  lemma {:induction false} MarketStep(c: Clock, a: seq<Tick>, n: nat)
    requires 0 < n <= |a| && AllAccepted(c, a)
    ensures Advance(c, ExpectedMarket(c, a, n - 1), a[n - 1]) == ExpectedMarket(c, a, n)
  {
    VolumePositive(c, a, n);
    VolumePositive(c, a, n - 1);
  }

  lemma CrossStep(c: Clock, a: seq<Tick>, n: nat)
    requires 0 < n <= |a| && AllAccepted(c, a)
    ensures CrossNow(c, ExpectedMarket(c, a, n), a[n - 1]) <==> CrossesAt(c, a, n - 1)
  {
    if n > 1 {
      VwapPositive(c, a, n - 1);
      VwapTestEquivalent(c, a, n - 1);
      assert Accepts(c, a[n - 2]);
    }
  }

  lemma CrossExists(c: Clock, a: seq<Tick>, n: nat)
    ensures FirstCross(c, a, n).Some? <==> exists x: nat | x < n :: CrossesAt(c, a, x)
  {
    var p := Crossing(c, a);
    if x: nat :| x < n && CrossesAt(c, a, x) {
      assert p(x);
    }
    if FirstCross(c, a, n).Some? {
      assert p(FirstCross(c, a, n).value);
    }
  }

  /** A position can only have been entered at or after a cross. */
  lemma HeldMeansCrossed(c: Clock, o: Opening, a: seq<Tick>, n: nat)
    requires FirstEntry(c, o, a, n).Some?
    ensures FirstCross(c, a, n).Some?
  {
    var e := FirstEntry(c, o, a, n).value;
    assert Eligible(c, o, a)(e);
    CrossExists(c, a, n);
  }

  lemma RecordedStep(c: Clock, r: Risk, t: Ticker, a: seq<Tick>, n: nat)
    requires 0 < n <= |a| && AllAccepted(c, a)
    ensures
      var u := Recorded(c, Expected(c, r, t, a, n - 1), a[n - 1]);
      && u.market == ExpectedMarket(c, a, n)
      && u.cross == ExpectedCross(c, a, n)
      && u.position == ExpectedPosition(c, r, t.opening, a, n - 1)
      && u.symbol == t.symbol && u.opening == t.opening && u.status == ExpectedStatus(t, u.position)
      && (FirstEntry(c, t.opening, a, n - 1).Some? ==> u.excursion == ExpectedExcursion(c, t.opening, a, n))
      && (FirstEntry(c, t.opening, a, n - 1).None? ==> u.excursion == NO_EXCURSION)
  {
    MarketStep(c, a, n);
    CrossStep(c, a, n);
    assert Crossing(c, a)(n - 1) == CrossesAt(c, a, n - 1);
    var e := FirstEntry(c, t.opening, a, n - 1);
    if e.Some? {
      HeldMeansCrossed(c, t.opening, a, n - 1);
    }
  }

  lemma BuysStep(c: Clock, r: Risk, t: Ticker, a: seq<Tick>, n: nat)
    requires 0 < n <= |a| && AllAccepted(c, a)
    ensures Buys(c, Recorded(c, Expected(c, r, t, a, n - 1), a[n - 1]), a[n - 1])
       <==> FirstEntry(c, t.opening, a, n - 1).None? && EligibleAt(c, t.opening, a, n - 1)
  {
    RecordedStep(c, r, t, a, n);
    VwapPositive(c, a, n);
    CrossExists(c, a, n);
  }

  lemma ExitStep(c: Clock, r: Risk, o: Opening, a: seq<Tick>, n: nat)
    requires 0 < n <= |a| && AllAccepted(c, a) && RiskOk(r)
    requires FirstEntry(c, o, a, n - 1).Some?
    ensures
      var e := FirstEntry(c, o, a, n - 1).value;
      ExitSignal(ExpectedPosition(c, r, o, a, n - 1), a[n - 1]) ==
      if FirstExit(r, a, e, n - 1).None? && TriggersAt(r, a, e, n - 1) then ExitReason(r, a, e, n - 1) else Unset
  {
    var e := FirstEntry(c, o, a, n - 1).value;
    assert Accepts(c, a[e]) && Accepts(c, a[n - 1]);
    assert Target(r, a[e].price) > 0.0;
  }

  lemma EntryUnfolds(c: Clock, o: Opening, a: seq<Tick>, n: nat)
    requires 0 < n <= |a|
    ensures FirstEntry(c, o, a, n) ==
      if FirstEntry(c, o, a, n - 1).Some? then FirstEntry(c, o, a, n - 1)
      else if EligibleAt(c, o, a, n - 1) then Some(n - 1) else None
  {
    assert Eligible(c, o, a)(n - 1) == EligibleAt(c, o, a, n - 1);
  }

  lemma ExitUnfolds(r: Risk, a: seq<Tick>, e: nat, n: nat)
    requires e < n <= |a|
    ensures FirstExit(r, a, e, n) ==
      if n == e + 1 then None
      else if FirstExit(r, a, e, n - 1).Some? then FirstExit(r, a, e, n - 1)
      else if TriggersAt(r, a, e, n - 1) then Some(n - 1) else None
  {
    assert Triggering(r, a, e)(n - 1) == TriggersAt(r, a, e, n - 1);
  }

  /** The trade meets the description as long as nothing has been bought: it may be the entry. */
  lemma FlatStep(c: Clock, r: Risk, t: Ticker, a: seq<Tick>, n: nat)
    requires 0 < n <= |a| && AllAccepted(c, a) && FirstEntry(c, t.opening, a, n - 1).None?
    ensures
      var u, k := Recorded(c, Expected(c, r, t, a, n - 1), a[n - 1]), a[n - 1];
      && Acted(c, r, u, k) == Expected(c, r, t, a, n)
      && ExpectedEvents(c, r, t, a, n - 1) + Signals(c, u, k) == ExpectedEvents(c, r, t, a, n)
  {
    hide FirstEntry, FirstExit, FirstCross, EligibleAt, TriggersAt, Buys, Recorded, AllAccepted, FiltersPass,
         ExpectedMarket, ExpectedCross, Vwap, PV, V;
    RecordedStep(c, r, t, a, n);
    BuysStep(c, r, t, a, n);
    EntryUnfolds(c, t.opening, a, n);
    ExitUnfolds(r, a, n - 1, n);
  }

  /** And it meets it afterwards: it may be the exit. */
  lemma HeldStep(c: Clock, r: Risk, t: Ticker, a: seq<Tick>, n: nat)
    requires 0 < n <= |a| && AllAccepted(c, a) && RiskOk(r) && FirstEntry(c, t.opening, a, n - 1).Some?
    ensures
      var u, k := Recorded(c, Expected(c, r, t, a, n - 1), a[n - 1]), a[n - 1];
      && Acted(c, r, u, k) == Expected(c, r, t, a, n)
      && ExpectedEvents(c, r, t, a, n - 1) + Signals(c, u, k) == ExpectedEvents(c, r, t, a, n)
  {
    hide FirstExit, FirstCross, EligibleAt, TriggersAt, Buys, Recorded, AllAccepted, FiltersPass,
         ExpectedMarket, ExpectedCross, ExitSignal, Extremes, ExitReason, Target, StopLevel, Vwap, PV, V;
    var e := FirstEntry(c, t.opening, a, n - 1).value;
    RecordedStep(c, r, t, a, n);
    BuysStep(c, r, t, a, n);
    ExitStep(c, r, t.opening, a, n);
    EntryUnfolds(c, t.opening, a, n);
    ExitUnfolds(r, a, e, n);
    ExitReasons(r, a, e, n - 1);
  }

  lemma ExitReasons(r: Risk, a: seq<Tick>, e: nat, x: nat)
    requires e < |a| && x < |a|
    ensures ExitReason(r, a, e, x) != Unset
  {
  }

  lemma StepMeetsSpec(c: Clock, r: Risk, t: Ticker, a: seq<Tick>, n: nat)
    requires 0 < n <= |a| && AllAccepted(c, a) && RiskOk(r)
    ensures Step(c, r, Expected(c, r, t, a, n - 1), a[n - 1]) == Expected(c, r, t, a, n)
    ensures ExpectedEvents(c, r, t, a, n - 1) + Emits(c, Expected(c, r, t, a, n - 1), a[n - 1])
         == ExpectedEvents(c, r, t, a, n)
  {
    hide Expected, ExpectedEvents, Recorded, Acted, Signals, FirstEntry;
    assert Accepts(c, a[n - 1]);
    if FirstEntry(c, t.opening, a, n - 1).None? {
      FlatStep(c, r, t, a, n);
    } else {
      HeldStep(c, r, t, a, n);
    }
  }

  lemma NothingYet(c: Clock, r: Risk, t: Ticker, a: seq<Tick>)
    requires Fresh(t)
    ensures Expected(c, r, t, a, 0) == t && ExpectedEvents(c, r, t, a, 0) == []
  {
  }

  /**
   The machine's fields and events after any number of accepted trades are those
   of the description: one entry, at the least eligible trade, and one exit, at the
   least trigger after it.
   */
  lemma {:induction false} RunMeetsSpec(c: Clock, r: Risk, t: Ticker, a: seq<Tick>, n: nat)
    requires n <= |a| && AllAccepted(c, a) && RiskOk(r) && Fresh(t)
    ensures Run(c, r, t, a, n) == Expected(c, r, t, a, n)
    ensures Emitted(c, r, t, a, n) == ExpectedEvents(c, r, t, a, n)
  {
    hide *;
    RunUnfolds(c, r, t, a, n);
    if n == 0 {
      NothingYet(c, r, t, a);
    } else {
      RunMeetsSpec(c, r, t, a, n - 1);
      StepMeetsSpec(c, r, t, a, n);
    }
  }
}
