/**
 Resolving a requested date to a trading session.  Days are numbered from
 1970-01-01, a Thursday; whether a day has opening data is asked of an oracle.
 */
module Session {
  import OpenRange

  datatype Probe = HasData | NoData | Failed

  datatype Resolution =
    | Resolved(day: int, fallback: bool)
    | InFuture
    | ProbeFailed(day: int)
    | NotFound

  const PROBED := 8

  predicate Traded(r: OpenRange.Lookup) {
    r.Found? && r.open > 0.0 && r.high > 0.0 && r.low > 0.0 && r.vol > 0.0
  }

  /**
   Asks the first few watchlist symbols for their opening bars: one that traded is a yes,
   and only if every lookup failed (or there was none to make) is the probe an error.
   */
  method HasOpen5mData(watchlist: seq<string>, metrics: string -> OpenRange.Lookup) returns (p: Probe)
    ensures
      var n := if |watchlist| > 8 then 8 else |watchlist|;
      && (p.HasData? <==> exists i | 0 <= i < n ::
            var r := metrics(watchlist[i]);
            r.Found? && r.open > 0.0 && r.high > 0.0 && r.low > 0.0 && r.vol > 0.0)
      && (p.Failed? <==> forall i | 0 <= i < n :: metrics(watchlist[i]).Failed?)
  {
    if |watchlist| == 0 {
      return Failed;
    }
    var n := if |watchlist| > PROBED then PROBED else |watchlist|;
    var failed, answered := false, false;
    var i := 0;
    while i < n
      invariant 0 <= i <= n
      invariant !failed && !answered <==> i == 0
      invariant answered <==> exists j | 0 <= j < i :: !metrics(watchlist[j]).Failed?
      invariant forall j | 0 <= j < i :: !Traded(metrics(watchlist[j]))
    {
      var r := metrics(watchlist[i]);
      if r.Failed? {
        failed := true;
        i := i + 1;
        continue;
      }
      answered := true;
      if Traded(r) {
        return HasData;
      }
      i := i + 1;
    }
    if !answered && failed {
      return Failed;
    }
    return NoData;
  }

  const SUNDAY := 0
  const SATURDAY := 6

  function Weekday(day: int): int {
    (day + 4) % 7
  }

  predicate IsSession(day: int) {
    Weekday(day) != SATURDAY && Weekday(day) != SUNDAY
  }

  /** 1970-01-03 was a Saturday. */
  lemma WeekdaysAre(day: int)
    ensures IsSession(day) <==> day % 7 != 2 && day % 7 != 3
    ensures Weekday(day) == SATURDAY <==> day % 7 == 2
  {
  }

  /** How many weekdays lie in `(day, target]`. */
  ghost function WeekdaysAfter(day: int, target: int): (n: nat)
    decreases target - day
  {
    if day >= target then 0
    else (if IsSession(day + 1) then 1 else 0) + WeekdaysAfter(day + 1, target)
  }

  /** Every weekday in `(day, target]` was asked and has no data. */
  ghost predicate NothingAfter(probe: int -> Probe, day: int, target: int) {
    forall d | day < d <= target && IsSession(d) :: probe(d) == NoData
  }

  /** The larger of ten and the lookback and fifteen more. */
  function MaxAttempts(lookback: int): (n: int)
    ensures n >= 10 && n >= lookback + 15 && (n == 10 || n == lookback + 15)
  {
    if lookback + 15 < 10 then 10 else lookback + 15
  }

  /** The result is settled by the latest weekday whose probe is not a plain no. */
  ghost predicate Meets(probe: int -> Probe, target: int, today: int, lookback: int, r: Resolution) {
    match r
    case InFuture => target > today
    case Resolved(d, fallback) =>
      && target <= today && d <= target && IsSession(d) && probe(d) == HasData
      && NothingAfter(probe, d, target) && WeekdaysAfter(d, target) < MaxAttempts(lookback)
      && (fallback <==> d != target)
    case ProbeFailed(d) =>
      && target <= today && d <= target && IsSession(d) && probe(d) == Failed
      && NothingAfter(probe, d, target) && WeekdaysAfter(d, target) < MaxAttempts(lookback)
    case NotFound =>
      && target <= today
      && exists d | d <= target ::
           NothingAfter(probe, d, target) && WeekdaysAfter(d, target) == MaxAttempts(lookback)
  }

  lemma DayBefore(day: int)
    ensures Weekday(day - 1) == if Weekday(day) == SUNDAY then SATURDAY else Weekday(day) - 1
  {
  }

  /** `p` is the latest weekday before `day`. */
  ghost predicate PrecedingSession(p: int, day: int) {
    p < day && IsSession(p) && forall x | p < x < day :: !IsSession(x)
  }

  lemma {:induction false} SkippedAddNothing(p: int, day: int, target: int)
    requires p <= day <= target && forall x | p < x <= day :: !IsSession(x)
    ensures WeekdaysAfter(p, target) == WeekdaysAfter(day, target)
    decreases day - p
  {
    if p < day {
      SkippedAddNothing(p + 1, day, target);
    }
  }

  /** Going back over a weekday without data asks one weekday more and misses none. */
  lemma PrecedingKeeps(probe: int -> Probe, p: int, day: int, target: int)
    requires PrecedingSession(p, day) && day <= target
    requires IsSession(day) && probe(day) == NoData && NothingAfter(probe, day, target)
    ensures NothingAfter(probe, p, target)
    ensures WeekdaysAfter(p, target) == WeekdaysAfter(day, target) + 1
  {
    SkippedAddNothing(p, day - 1, target);
  }

  /** One day back, then over a Saturday, then over a Sunday. */
  method StepBack(day: int) returns (d: int)
    ensures PrecedingSession(d, day)
  {
    DayBefore(day);
    DayBefore(day - 1);
    DayBefore(day - 2);
    d := day - 1;
    while Weekday(d) == SATURDAY
      invariant d == day - 1 || (d == day - 2 && Weekday(day - 1) == SATURDAY)
      decreases d - day + 2
    {
      d := d - 1;
    }
    while Weekday(d) == SUNDAY
      invariant Weekday(d) != SATURDAY
      invariant d == day - 1 || (d == day - 2 && Weekday(day - 1) == SATURDAY)
             || (d == day - 3 && Weekday(day - 1) == SUNDAY && IsSession(d))
      decreases d - day + 3
    {
      d := d - 2;
    }
  }

  method ResolveSession(probe: int -> Probe, target: int, today: int, lookback: int) returns (r: Resolution)
    ensures Meets(probe, target, today, lookback, r)
  {
    if target > today {
      return InFuture;
    }
    var d := target;
    DayBefore(target);
    DayBefore(target - 1);
    if Weekday(d) == SATURDAY {
      d := d - 1;
    } else if Weekday(d) == SUNDAY {
      d := d - 2;
    }
    SkippedAddNothing(d, target, target);
    var attempts := MaxAttempts(lookback);
    var i := 0;
    while i < attempts
      invariant 0 <= i <= attempts
      invariant d <= target && IsSession(d)
      invariant NothingAfter(probe, d, target)
      invariant WeekdaysAfter(d, target) == i
    {
      match probe(d) {
        case Failed => return ProbeFailed(d);
        case HasData => return Resolved(d, d != target);
        case NoData =>
      }
      var before := StepBack(d);
      PrecedingKeeps(probe, before, d, target);
      d := before;
      i := i + 1;
    }
    return NotFound;
  }

  lemma {:induction false} WeekdaysMonotone(p: int, q: int, target: int)
    requires p <= q
    ensures WeekdaysAfter(p, target) >= WeekdaysAfter(q, target)
    decreases q - p
  {
    if p < q {
      WeekdaysMonotone(p + 1, q, target);
    }
  }

  /** The condition leaves one answer: nobody could return another day, or give up early. */
  lemma ResolutionUnique(probe: int -> Probe, target: int, today: int, lookback: int, r: Resolution, q: Resolution)
    requires Meets(probe, target, today, lookback, r) && Meets(probe, target, today, lookback, q)
    ensures r == q
  {
    var attempts := MaxAttempts(lookback);
    if r.NotFound? && !q.NotFound? {
      var d :| d <= target && NothingAfter(probe, d, target) && WeekdaysAfter(d, target) == attempts;
      if q.day <= d {
        WeekdaysMonotone(q.day, d, target);
      }
    } else if q.NotFound? && !r.NotFound? {
      var d :| d <= target && NothingAfter(probe, d, target) && WeekdaysAfter(d, target) == attempts;
      if r.day <= d {
        WeekdaysMonotone(r.day, d, target);
      }
    }
  }
}
