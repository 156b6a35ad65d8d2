/**
 A concrete run in which the timed close reads an open position, a trade takes the
 profit, and the close then closes the position once more.
 */
module RaceExample {
  import opened Wrappers
  import opened Tape
  import opened EventLog
  import ReplayLaws

  const ANY := Filters(0.0, 9.0, 0.0, 9.0, 0.0, 9.0, 0, 99, 0.0, 99.0, 0.5, 0.5, 0.5)
  const DAY := Clock(1, 60001, 300001, 600001)
  const TEN_PERCENT := Risk(0.1, 0.1)
  const STARTS := Tick(60001, 20.0, 1.0, ANY, true)
  const FALLS := Tick(60002, 10.0, 1.0, ANY, true)
  const CROSSES := Tick(60003, 30.0, 1.0, ANY, true)
  const GAINS := Tick(60004, 40.0, 1.0, ANY, true)

  ghost function Ran(a: seq<Tick>): Ticker {
    Run(DAY, TEN_PERCENT, NewTicker("A"), a, |a|)
  }

  lemma RanOn(a: seq<Tick>, k: Tick)
    ensures Ran(a + [k]) == Step(DAY, TEN_PERCENT, Ran(a), k)
  {
    ReplayLaws.RunSnoc(DAY, TEN_PERCENT, NewTicker("A"), a, k);
  }

  lemma RanNothing()
    ensures Ran([]) == NewTicker("A")
  {
  }

  lemma AfterStart()
    ensures Ran([STARTS]) ==
      NewTicker("A").(market := Market(20.0, 1.0, 20.0, 20.0, Some(60001), 0.0, 0.0, 1.0))
  {
    hide Ran, Run;
    RanOn([], STARTS);
    assert [] + [STARTS] == [STARTS];
    RanNothing();
  }

  lemma AfterFall()
    ensures
      var t, u := Ran([STARTS]), Ran([STARTS, FALLS]);
      u == t.(market := Market(30.0, 2.0, 15.0, 10.0, Some(60002), 20.0, 20.0, Minutes(DAY, 60002)))
  {
    hide Ran, Minutes;
    AfterStart();
    RanOn([STARTS], FALLS);
    assert [STARTS] + [FALLS] == [STARTS, FALLS];
  }

  lemma AfterCross()
    ensures
      var u := Ran([STARTS, FALLS, CROSSES]);
      u.symbol == "A" && Open(u) && u.position.entryTime == Some(60003) && u.position.target == 33.0
  {
    hide Ran;
    AfterStart();
    AfterFall();
    RanOn([STARTS, FALLS], CROSSES);
    assert [STARTS, FALLS] + [CROSSES] == [STARTS, FALLS, CROSSES];
    var u := Recorded(DAY, Ran([STARTS, FALLS]), CROSSES);
    assert u.market.vwap == 20.0 && u.cross.saw;
    assert Buys(DAY, u, CROSSES);
  }

  lemma AfterGain()
    ensures
      var u := Ran([STARTS, FALLS, CROSSES] + [GAINS]);
      Trail("A", u.position) == [Event(Buy, "A", 60003), Event(Profit, "A", 60004)]
  {
    hide Ran, Recorded, Advance;
    AfterCross();
    RanOn([STARTS, FALLS, CROSSES], GAINS);
    RecordingKeeps(DAY, Ran([STARTS, FALLS, CROSSES]), GAINS);
  }

  lemma RecordingKeeps(c: Clock, t: Ticker, k: Tick)
    ensures Recorded(c, t, k).position == t.position && Recorded(c, t, k).symbol == t.symbol
  {
  }

  /** Three trades buy at 30; the fourth takes the profit between the close's reading and its writing. */
  lemma TwoExits()
    ensures
      var a, b := [STARTS, FALLS, CROSSES], [GAINS];
      var x := Ran(a + b);
      var y := Closed(DAY, x, TimeExit, DAY.exit, ClosingPrice(Ran(a)));
      && Open(Ran(a))
      && Emitted(DAY, TEN_PERCENT, NewTicker("A"), a + b, |a + b|) + [Event(TimeExit, "A", DAY.exit)]
         + Emitted(DAY, TEN_PERCENT, y, [], 0)
         == [Event(Buy, "A", 60003), Event(Profit, "A", 60004), Event(TimeExit, "A", 600001)]
  {
    AfterCross();
    AfterGain();
    var a, b := [STARTS, FALLS, CROSSES], [GAINS];
    LateCloseTrail(DAY, TEN_PERCENT, NewTicker("A"), a, b, [], DAY.exit, ClosingPrice(Ran(a)));
    hide Run, Emitted, Trail, Closed, ClosingPrice, Open;
  }
}
