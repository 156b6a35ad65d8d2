/**
 The event log against the ticker table: what was logged about a ticker is what its
 position record calls for, no more and no less.
 */
module EventLog {
  import opened Wrappers
  import opened Tape
  import ReplayLaws

  /** The trading events about one symbol, in order; SYSTEM messages may name a symbol too. */
  function About(log: seq<Event>, sym: string): seq<Event> {
    if log == [] then []
    else
      var front, last := log[..|log| - 1], log[|log| - 1];
      About(front, sym) + if last.symbol == sym && last.kind != System then [last] else []
  }

  lemma {:induction false} AboutAppend(a: seq<Event>, b: seq<Event>, sym: string)
    ensures About(a + b, sym) == About(a, sym) + About(b, sym)
  {
    if b == [] {
      assert a + b == a;
    } else {
      var front := b[..|b| - 1];
      AboutAppend(a, front, sym);
      assert (a + b)[..|a + b| - 1] == a + front;
    }
  }

  lemma {:induction false} AboutOne(evs: seq<Event>, owner: string, sym: string)
    requires forall e | e in evs :: e.symbol == owner && e.kind != System
    ensures About(evs, sym) == if sym == owner then evs else []
  {
    if evs != [] {
      AboutOne(evs[..|evs| - 1], owner, sym);
      assert evs[|evs| - 1] in evs;
    }
  }

  /** The later log adds only SYSTEM messages. */
  ghost predicate Quiet(before: seq<Event>, after: seq<Event>) {
    before <= after && forall i | |before| <= i < |after| :: after[i].kind == System
  }

  lemma QuietSame(log: seq<Event>)
    ensures Quiet(log, log)
  {
  }

  lemma QuietMore(a: seq<Event>, b: seq<Event>, d: seq<Event>)
    requires Quiet(a, b) && Quiet(b, d)
    ensures Quiet(a, d)
  {
  }

  lemma {:induction false} QuietAbout(before: seq<Event>, after: seq<Event>, sym: string)
    requires Quiet(before, after)
    ensures About(after, sym) == About(before, sym)
  {
    if |before| < |after| {
      var front := after[..|after| - 1];
      assert before <= front;
      QuietAbout(before, front, sym);
    } else {
      assert after == before;
    }
  }

  /** The log without its messages. */
  ghost function Told(log: seq<Event>): seq<Event> {
    if log == [] then []
    else
      var front, last := log[..|log| - 1], log[|log| - 1];
      Told(front) + if last.kind != System then [last] else []
  }

  lemma {:induction false} ToldAppend(a: seq<Event>, b: seq<Event>)
    ensures Told(a + b) == Told(a) + Told(b)
  {
    if b == [] {
      assert a + b == a;
    } else {
      var front := b[..|b| - 1];
      ToldAppend(a, front);
      assert (a + b)[..|a + b| - 1] == a + front;
    }
  }

  lemma {:induction false} ToldWhole(evs: seq<Event>)
    requires forall e | e in evs :: e.kind != System
    ensures Told(evs) == evs
  {
    if evs != [] {
      var front, last := evs[..|evs| - 1], evs[|evs| - 1];
      ToldWhole(front);
      assert last in evs;
      assert evs == front + [last];
    }
  }

  lemma ToldMore(log: seq<Event>, evs: seq<Event>)
    requires forall e | e in evs :: e.kind != System
    ensures Told(log + evs) == Told(log) + evs
  {
    ToldAppend(log, evs);
    ToldWhole(evs);
  }

  lemma {:induction false} QuietTold(before: seq<Event>, after: seq<Event>)
    requires Quiet(before, after)
    ensures Told(after) == Told(before)
  {
    if |before| < |after| {
      var front := after[..|after| - 1];
      assert before <= front;
      QuietTold(before, front);
    } else {
      assert after == before;
    }
  }

  lemma NothingTold(log: seq<Event>)
    requires Quiet([], log)
    ensures Told(log) == []
  {
    QuietTold([], log);
  }

  function Instant(time: Option<int>): int {
    if time.Some? then time.value else 0
  }

  /** The events a position's record calls for: its BUY, then its exit. */
  function Trail(sym: string, p: Position): seq<Event> {
    if !p.held then []
    else
      [Event(Buy, sym, Instant(p.entryTime))] +
      if p.exited then [Event(p.reason, sym, Instant(p.exitTime))] else []
  }

  lemma StepTrail(c: Clock, r: Risk, t: Ticker, k: Tick)
    ensures Step(c, r, t, k).symbol == t.symbol
    ensures Trail(t.symbol, Step(c, r, t, k).position) == Trail(t.symbol, t.position) + Emits(c, t, k)
    ensures forall e | e in Emits(c, t, k) :: e.symbol == t.symbol && e.kind != System
  {
  }

  lemma ExitTrail(c: Clock, sym: string, t: Ticker, time: int)
    ensures Trail(sym, TimeExited(c, t, time).position)
         == Trail(sym, t.position) + if Open(t) then [Event(TimeExit, sym, time)] else []
  {
  }

  lemma {:induction false} RunTrail(c: Clock, r: Risk, t: Ticker, a: seq<Tick>, n: nat)
    requires n <= |a|
    ensures Run(c, r, t, a, n).symbol == t.symbol
    ensures Trail(t.symbol, Run(c, r, t, a, n).position) == Trail(t.symbol, t.position) + Emitted(c, r, t, a, n)
    ensures forall e | e in Emitted(c, r, t, a, n) :: e.symbol == t.symbol && e.kind != System
  {
    hide *;
    RunUnfolds(c, r, t, a, n);
    if n > 0 {
      RunTrail(c, r, t, a, n - 1);
      StepTrail(c, r, Run(c, r, t, a, n - 1), a[n - 1]);
    }
  }

  /** The event of the timed close, if it has come. */
  function Rung(bell: Option<int>): seq<Event> {
    if bell.Some? then [Event(Eleven, "", bell.value)] else []
  }

  /**
   The log holds SYSTEM messages, the event of the timed close once if it has come, and for
   every ticker of the table exactly the events that its position calls for; nothing else.
   */
  ghost predicate LogTells(m: map<string, Ticker>, log: seq<Event>, bell: Option<int>) {
    && "" !in m
    && (forall s | s in m :: About(log, s) == Trail(s, m[s].position))
    && About(log, "") == Rung(bell)
    && OnlyKnown(m, log)
  }

  /** Every event but the messages is about a ticker of the table, or about none. */
  ghost predicate OnlyKnown(m: map<string, Ticker>, log: seq<Event>) {
    forall e | e in log && e.kind != System :: e.symbol in m || e.symbol == ""
  }

  lemma QuietTells(m: map<string, Ticker>, before: seq<Event>, after: seq<Event>, bell: Option<int>)
    requires LogTells(m, before, bell) && Quiet(before, after)
    ensures LogTells(m, after, bell)
  {
    hide About, Trail;
    forall s | s in m {
      QuietAbout(before, after, s);
    }
    QuietAbout(before, after, "");
    forall e | e in after && e.kind != System ensures e in before {
      var i :| 0 <= i < |after| && after[i] == e;
      assert i < |before|;
      assert before[i] == e;
    }
  }

  /** As long as nothing is held, a log of SYSTEM messages is right. */
  lemma NothingLogged(m: map<string, Ticker>, log: seq<Event>)
    requires "" !in m && Quiet([], log) && forall s | s in m :: !m[s].position.held
    ensures LogTells(m, log, None)
  {
    forall s ensures About(log, s) == [] {
      QuietAbout([], log, s);
    }
  }

  lemma TellsOneMore(
    m: map<string, Ticker>, log: seq<Event>, bell: Option<int>, sym: string, t: Ticker, evs: seq<Event>)
    requires LogTells(m, log, bell) && sym in m && forall e | e in evs :: e.symbol == sym && e.kind != System
    requires Trail(sym, t.position) == Trail(sym, m[sym].position) + evs
    ensures LogTells(m[sym := t], log + evs, bell)
  {
    hide Trail, About;
    forall s ensures About(log + evs, s) == About(log, s) + if s == sym then evs else [] {
      AboutAppend(log, evs, s);
      AboutOne(evs, sym, s);
    }
  }

  /** Feeding trades to one ticker keeps table and log in agreement. */
  lemma TellsAfterRun(
    c: Clock, r: Risk, m: map<string, Ticker>, log: seq<Event>, bell: Option<int>, sym: string, a: seq<Tick>)
    requires LogTells(m, log, bell) && sym in m && m[sym].symbol == sym
    ensures LogTells(m[sym := Run(c, r, m[sym], a, |a|)], log + Emitted(c, r, m[sym], a, |a|), bell)
  {
    RunTrail(c, r, m[sym], a, |a|);
    TellsOneMore(m, log, bell, sym, Run(c, r, m[sym], a, |a|), Emitted(c, r, m[sym], a, |a|));
  }

  lemma TellsAfterStep(
    c: Clock, r: Risk, m: map<string, Ticker>, log: seq<Event>, bell: Option<int>, sym: string, k: Tick)
    requires LogTells(m, log, bell) && sym in m && m[sym].symbol == sym
    ensures LogTells(m[sym := Step(c, r, m[sym], k)], log + Emits(c, m[sym], k), bell)
  {
    StepTrail(c, r, m[sym], k);
    TellsOneMore(m, log, bell, sym, Step(c, r, m[sym], k), Emits(c, m[sym], k));
  }

  ghost function CloseEvent(m: map<string, Ticker>, wl: seq<string>, i: nat, time: int): seq<Event>
    requires i < |wl|
  {
    if wl[i] in m && Open(m[wl[i]]) && wl[i] !in wl[..i] then [Event(TimeExit, wl[i], time)] else []
  }

  /** One TIME_EXIT for each open position, at its first place in the watchlist. */
  ghost function CloseEvents(m: map<string, Ticker>, wl: seq<string>, n: nat, time: int): seq<Event>
    requires n <= |wl|
  {
    if n == 0 then [] else CloseEvents(m, wl, n - 1, time) + CloseEvent(m, wl, n - 1, time)
  }

  lemma {:induction false} AboutClose(m: map<string, Ticker>, wl: seq<string>, n: nat, time: int, s: string)
    requires n <= |wl|
    ensures About(CloseEvents(m, wl, n, time), s)
         == if s in wl[..n] && s in m && Open(m[s]) then [Event(TimeExit, s, time)] else []
  {
    hide About, Open;
    if n == 0 {
      AboutOne([], s, s);
    } else {
      AboutClose(m, wl, n - 1, time, s);
      assert wl[..n] == wl[..n - 1] + [wl[n - 1]];
      AboutAppend(CloseEvents(m, wl, n - 1, time), CloseEvent(m, wl, n - 1, time), s);
      AboutOne(CloseEvent(m, wl, n - 1, time), wl[n - 1], s);
    }
  }

  lemma {:induction false} ClosesAreTold(m: map<string, Ticker>, wl: seq<string>, n: nat, time: int)
    requires n <= |wl|
    ensures forall e | e in CloseEvents(m, wl, n, time) :: e.kind != System
  {
    if n > 0 {
      ClosesAreTold(m, wl, n - 1, time);
    }
  }

  lemma {:induction false} ClosesAreKnown(m: map<string, Ticker>, wl: seq<string>, n: nat, time: int)
    requires n <= |wl|
    ensures forall e | e in CloseEvents(m, wl, n, time) :: e.symbol in m
  {
    if n > 0 {
      ClosesAreKnown(m, wl, n - 1, time);
    }
  }

  /** An open position is left at the last price, at the entry price if there is none; nothing else changes. */
  ghost predicate LeftByTime(c: Clock, t: Ticker, u: Ticker, time: int) {
    var p, last := t.position, t.market.lastPrice;
    if p.held && !p.exited then
      u == t.(position := p.(exited := true, reason := TimeExit, exitTime := Some(time),
                             exitPrice := if last > 0.0 then last else p.entryPrice,
                             exitMinutes := (time - c.open) as real / 60000.0),
              status := TimeExit)
    else u == t
  }

  lemma LeftIs(c: Clock, t: Ticker, u: Ticker, time: int)
    ensures LeftByTime(c, t, u, time) <==> u == TimeExited(c, t, time)
  {
  }

  /** The table after the open positions of the listed symbols were left by time. */
  ghost predicate ClosedOut(
    c: Clock, before: map<string, Ticker>, after: map<string, Ticker>, wl: seq<string>, time: int) {
    && after.Keys == before.Keys
    && forall s | s in after ::
         if s in wl then LeftByTime(c, before[s], after[s], time) else after[s] == before[s]
  }

  /** The forced close logs its own event and one exit for each position it closes. */
  lemma {:induction false} TellsAfterClose(
    c: Clock, before: map<string, Ticker>, after: map<string, Ticker>, log: seq<Event>, wl: seq<string>, time: int)
    requires LogTells(before, log, None) && ClosedOut(c, before, after, wl, time)
    ensures LogTells(after, log + [Event(Eleven, "", time)] + CloseEvents(before, wl, |wl|, time), Some(time))
  {
    hide Trail, TimeExited, LeftByTime, Open, About, CloseEvents;
    var eleven, closes := [Event(Eleven, "", time)], CloseEvents(before, wl, |wl|, time);
    assert wl[..|wl|] == wl;
    forall s | s in after ensures About(log + eleven + closes, s) == Trail(s, after[s].position) {
      AboutAppend(log + eleven, closes, s);
      AboutAppend(log, eleven, s);
      AboutOne(eleven, "", s);
      AboutClose(before, wl, |wl|, time, s);
      ExitTrail(c, s, before[s], time);
      LeftIs(c, before[s], after[s], time);
    }
    AboutAppend(log + eleven, closes, "");
    AboutAppend(log, eleven, "");
    AboutOne(eleven, "", "");
    AboutClose(before, wl, |wl|, time, "");
    ClosesAreKnown(before, wl, |wl|, time);
  }

  /**
   What one ticker's log holds when the close read an open position after `a` and closed
   it after `a + b`: the trail of the trades up to then, hence one BUY, and the close's
   TIME_EXIT.  There is a second exit exactly if a trade of `b` had exited in between.
   */
  lemma LateCloseTrail(c: Clock, r: Risk, t: Ticker, a: seq<Tick>, b: seq<Tick>, d: seq<Tick>, time: int, price: real)
    requires !t.position.held && Open(Run(c, r, t, a, |a|))
    ensures
      var x := Run(c, r, t, a + b, |a + b|);
      var y := Closed(c, x, TimeExit, time, price);
      var log := Emitted(c, r, t, a + b, |a + b|) + [Event(TimeExit, t.symbol, time)] + Emitted(c, r, y, d, |d|);
      && log == Trail(t.symbol, x.position) + [Event(TimeExit, t.symbol, time)]
      && |log| == (if x.position.exited then 3 else 2) && log[0].kind == Buy
  {
    ReplayLaws.LateClose(c, r, t, a, b, d, time, price);
    RunTrail(c, r, t, a + b, |a + b|);
    var x := Run(c, r, t, a + b, |a + b|);
    var y := Closed(c, x, TimeExit, time, price);
    hide Run, Emitted, Closed;
    assert Trail(t.symbol, t.position) == [];
  }
}
