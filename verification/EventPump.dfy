/**
 The polling pump that hands logged events to the browser hub, against the bounded
 log of module `Store`.  Appends and session resets come from other goroutines and may
 fall anywhere between two ticks.
 */
module EventPump {
  import opened Wrappers
  import opened Tape
  import Store

  datatype Cursor = Cursor(session: Option<int>, len: nat)

  /** The cursor that a tick starts from, after noticing a new session or a shorter log. */
  function Resumed(p: Cursor, session: int, len: nat): (q: Cursor)
    ensures q.session == Some(session) && q.len <= len
    ensures p.session == Some(session) && p.len <= len ==> q == p
    ensures p.session != Some(session) || p.len > len ==> q.len == 0
  {
    var q := if p.session != Some(session) then Cursor(Some(session), 0) else p;
    if len < q.len then q.(len := 0) else q
  }

  class Pump {
    var lastSession: Option<int>
    var lastLen: nat
    var hub: seq<Event>

    constructor ()
      ensures lastSession == None && lastLen == 0 && hub == []
    {
      lastSession, lastLen, hub := None, 0, [];
    }

    /** One tick over a snapshot: broadcasts the events past the cursor, one by one. */
    method Tick(session: int, events: seq<Event>)
      modifies this
      ensures lastSession == Some(session) && lastLen == |events|
      ensures
        var seen := if old(lastSession) == Some(session) && old(lastLen) <= |events| then old(lastLen) else 0;
        hub == old(hub) + events[seen..]
      ensures hub == old(hub) + events[Resumed(Cursor(old(lastSession), old(lastLen)), session, |events|).len..]
    {
      if lastSession != Some(session) {
        lastSession := Some(session);
        lastLen := 0;
      }
      if |events| < lastLen {
        lastLen := 0;
      }
      var i := lastLen;
      while i < |events|
        invariant lastLen <= i <= |events|
        invariant hub == old(hub) + events[lastLen..i]
        invariant lastSession == Some(session)
        invariant lastLen == Resumed(Cursor(old(lastSession), old(lastLen)), session, |events|).len
      {
        assert events[lastLen..i + 1] == events[lastLen..i] + [events[i]];
        hub := hub + [events[i]];
        i := i + 1;
      }
      lastLen := |events|;
    }
  }

  // ---- Log and pump together ----

  /** `appended` is what the session has logged; `handed` is what the hub got for it. */
  datatype World = World(session: int, appended: seq<Event>, cursor: Cursor, handed: seq<Event>)

  datatype Action = Append(ev: Event) | Reset(session: int) | Tick

  function Log(w: World, max: nat): seq<Event> {
    Store.Newest(w.appended, max)
  }

  function Do(max: nat, w: World, a: Action): World {
    match a
    case Append(ev) => w.(appended := w.appended + [ev])
    case Reset(session) => World(session, [], w.cursor, [])
    case Tick =>
      var log := Log(w, max);
      var from := Resumed(w.cursor, w.session, |log|).len;
      w.(cursor := Cursor(Some(w.session), |log|), handed := w.handed + log[from..])
  }

  function Exec(max: nat, session: int, acts: seq<Action>): World {
    if acts == [] then World(session, [], Cursor(None, 0), [])
    else Do(max, Exec(max, session, acts[..|acts| - 1]), acts[|acts| - 1])
  }

  /** Session ids are never reused. */
  ghost predicate FreshSessions(session: int, acts: seq<Action>) {
    && (forall i | 0 <= i < |acts| && acts[i].Reset? :: acts[i].session != session)
    && (forall i, j | 0 <= i < j < |acts| && acts[i].Reset? && acts[j].Reset? :: acts[i].session != acts[j].session)
  }

  /** The hub has been handed as many events as the log held at the last tick, the same ones until it overflows. */
  ghost predicate Inv(max: nat, w: World) {
    if w.cursor.session == Some(w.session) then
      && |w.handed| == w.cursor.len <= |Log(w, max)|
      && (|w.appended| <= max ==> w.handed == w.appended[..w.cursor.len])
    else w.handed == []
  }

  lemma {:induction false} SessionsSeen(max: nat, session: int, acts: seq<Action>)
    requires FreshSessions(session, acts)
    ensures var w := Exec(max, session, acts);
      && (w.session == session || exists i | 0 <= i < |acts| :: acts[i] == Reset(w.session))
      && (w.cursor.session.None? || w.cursor.session == Some(session)
          || exists i | 0 <= i < |acts| :: acts[i] == Reset(w.cursor.session.value))
  {
    if acts != [] {
      var before := acts[..|acts| - 1];
      SessionsSeen(max, session, before);
      var w := Exec(max, session, before);
      if acts[|acts| - 1].Reset? {
        assert acts[|acts| - 1] == Reset(acts[|acts| - 1].session);
      }
      forall i | 0 <= i < |before| ensures before[i] == acts[i] {}
    }
  }

  lemma {:induction false} ReachableInv(max: nat, session: int, acts: seq<Action>)
    requires FreshSessions(session, acts)
    ensures Inv(max, Exec(max, session, acts))
  {
    if acts != [] {
      var before := acts[..|acts| - 1];
      ReachableInv(max, session, before);
      SessionsSeen(max, session, before);
    }
  }

  /**
   After a tick the hub has received the session's events, in order and once each,
   exactly as long as the session has not outgrown the log.  Once it has, the pump's
   cursor sits at the full length and later events are never handed on.
   */
  lemma PumpDeliversUntilOverflow(max: nat, session: int, acts: seq<Action>)
    requires FreshSessions(session, acts) && acts != [] && acts[|acts| - 1].Tick?
    ensures var w := Exec(max, session, acts);
      w.handed == w.appended <==> |w.appended| <= max
  {
    ReachableInv(max, session, acts);
    var w := Exec(max, session, acts);
    assert |w.handed| == |Log(w, max)|;
  }

  /** Whatever a tick hands on is the end of what the session has logged, and at most a full log. */
  lemma TickHandsOnTheEnd(max: nat, w: World)
    ensures
      var handed := Do(max, w, Action.Tick).handed;
      var k := |handed| - |w.handed|;
      && 0 <= k <= |w.appended| && k <= max
      && handed == w.handed + w.appended[|w.appended| - k..]
  {
    var log := Log(w, max);
    var from := Resumed(w.cursor, w.session, |log|).len;
    assert log[from..] == w.appended[|w.appended| - (|log| - from)..];
  }

  /** A full log that the pump has seen: whatever is logged next, the next tick hands on nothing. */
  lemma OverflowIsSilent(max: nat, w: World, ev: Event)
    requires Inv(max, w) && w.cursor == Cursor(Some(w.session), max) && |w.appended| >= max
    ensures Do(max, Do(max, w, Append(ev)), Action.Tick).handed == w.handed
  {
    var v := Do(max, w, Append(ev));
    assert Log(v, max)[max..] == [];
  }

  /** A log of one event, two events and a tick after each: the second never arrives. */
  lemma SecondEventIsLost(a: Event, b: Event)
    ensures var w := Exec(1, 0, [Append(a), Action.Tick, Append(b), Action.Tick]);
      w.appended == [a, b] && w.handed == [a]
  {
    var acts := [Append(a), Action.Tick, Append(b), Action.Tick];
    assert acts[..3] == [Append(a), Action.Tick, Append(b)];
    assert acts[..3][..2] == [Append(a), Action.Tick];
    assert acts[..3][..2][..1] == [Append(a)];
    assert acts[..3][..2][..1][..0] == [];
    assert Exec(1, 0, [Append(a)]) == World(0, [a], Cursor(None, 0), []);
    assert Exec(1, 0, [Append(a), Action.Tick]) == World(0, [a], Cursor(Some(0), 1), [a]);
    assert Exec(1, 0, acts[..3]) == World(0, [a, b], Cursor(Some(0), 1), [a]);
  }
}
