/**
 The historic-run queue: any number of concurrent `QueueHistoricRun` calls over a
 one-slot channel, the consumer `historicRunLoop`, and the goroutine of the current
 run.  Every `select` and every channel operation is one atomic step, taken in any
 order the scheduler likes.  Requests are named by the call that made them.
 */
module HistoricQueue {
  import opened Wrappers

  /** Where a call stands: before its first select, its drop, or its second send. */
  datatype Stage = NotCalled | Trying | Dropping | Replacing | Returned

  /** `began`, `put` and `ended` are moments of the step clock, for the record only. */
  datatype Call = Call(stage: Stage, began: nat, put: Option<nat>, ended: nat)

  /** A run goroutine: the request it serves, whether its context is cancelled, whether `doneCh` is closed. */
  datatype Run = Run(request: nat, cancelled: bool, done: bool)

  datatype Consumer = Idle | Cancelling(day: nat) | Joining(day: nat) | Draining(latest: nat) | Stopping | Stopped

  datatype State = State(
    now: nat, calls: seq<Call>, slot: Option<nat>, consumer: Consumer, running: bool,
    runs: seq<Run>, shutdown: bool, lastPut: Option<nat>)

  datatype Action =
    | Invoke(c: nat) | TrySend(c: nat) | Drop(c: nat) | Resend(c: nat)
    | Take | CancelRun | Join | Drain | Start
    | RunEnds | Shutdown | SeeShutdown | StopJoined

  function Init(n: nat): State {
    State(0, seq(n, _ => Call(NotCalled, 0, None, 0)), None, Idle, false, [], false, None)
  }

  predicate At(s: State, c: nat, stage: Stage) {
    c < |s.calls| && s.calls[c].stage == stage
  }

  predicate RunAlive(s: State) {
    |s.runs| > 0 && !s.runs[|s.runs| - 1].done
  }

  predicate Enabled(s: State, a: Action) {
    match a
    case Invoke(c) => At(s, c, NotCalled)
    case TrySend(c) => At(s, c, Trying)
    case Drop(c) => At(s, c, Dropping)
    case Resend(c) => At(s, c, Replacing)
    case Take => s.consumer.Idle? && s.slot.Some?
    case CancelRun => s.consumer.Cancelling? && |s.runs| > 0
    case Join => s.consumer.Joining? && !RunAlive(s)
    case Drain => s.consumer.Draining? && s.slot.Some?
    case Start => s.consumer.Draining? && s.slot.None?
    case RunEnds => RunAlive(s)
    case Shutdown => !s.shutdown
    case SeeShutdown => s.consumer.Idle? && s.shutdown
    case StopJoined => s.consumer.Stopping? && !RunAlive(s)
  }

  function SetStage(s: State, c: nat, stage: Stage): State
    requires c < |s.calls|
  {
    s.(calls := s.calls[c := s.calls[c].(stage := stage)])
  }

  /** The call's request goes into the empty slot and the call returns. */
  function Put(s: State, c: nat): State
    requires c < |s.calls|
  {
    s.(calls := s.calls[c := s.calls[c].(stage := Returned, put := Some(s.now), ended := s.now)],
       slot := Some(c), lastPut := Some(c))
  }

  function GiveUp(s: State, c: nat): State
    requires c < |s.calls|
  {
    s.(calls := s.calls[c := s.calls[c].(stage := Returned, ended := s.now)])
  }

  /** A run's context derives from the server's, so a shutdown cancels the runs of before and after. */
  function Launch(s: State, day: nat): State {
    s.(runs := s.runs + [Run(day, s.shutdown, false)], running := true, consumer := Idle)
  }

  function CancelLast(s: State): State
    requires |s.runs| > 0
  {
    var i := |s.runs| - 1;
    s.(runs := s.runs[i := s.runs[i].(cancelled := true)])
  }

  /** The effect of a step; `historic` is the mode the server was started in. */
  function Effect(historic: bool, s: State, a: Action): State
    requires Enabled(s, a)
  {
    match a
    case Invoke(c) => s.(calls := s.calls[c := Call(Trying, s.now, None, 0)])
    case TrySend(c) => if s.slot.None? then Put(s, c) else SetStage(s, c, Dropping)
    case Drop(c) => SetStage(s, c, Replacing).(slot := None)
    case Resend(c) => if s.slot.None? then Put(s, c) else GiveUp(s, c)
    case Take =>
      var day := s.slot.value;
      if !historic then s.(slot := None)
      else if !s.running then Launch(s.(slot := None), day)
      else s.(slot := None, consumer := Cancelling(day))
    case CancelRun => CancelLast(s).(consumer := Joining(s.consumer.day))
    case Join => s.(consumer := Draining(s.consumer.day), running := false)
    case Drain => s.(slot := None, consumer := Draining(s.slot.value))
    case Start => Launch(s, s.consumer.latest)
    case RunEnds =>
      var i := |s.runs| - 1;
      s.(runs := s.runs[i := s.runs[i].(done := true)])
    case Shutdown => (if |s.runs| > 0 then CancelLast(s) else s).(shutdown := true)
    case SeeShutdown =>
      if s.running && |s.runs| > 0 then CancelLast(s).(consumer := Stopping) else s.(consumer := Stopped)
    case StopJoined => s.(consumer := Stopped)
  }

  function Do(historic: bool, s: State, a: Action): State
    requires Enabled(s, a)
  {
    Effect(historic, s, a).(now := s.now + 1)
  }

  /** The state a schedule of `n` calls leads to, if every step of it is possible. */
  function Exec(historic: bool, n: nat, acts: seq<Action>): Option<State> {
    if acts == [] then Some(Init(n))
    else
      match Exec(historic, n, acts[..|acts| - 1])
      case None => None
      case Some(s) =>
        var a := acts[|acts| - 1];
        if Enabled(s, a) then Some(Do(historic, s, a)) else None
  }

  /** Some schedule of `n` calls leads to the state. */
  ghost predicate Reachable(historic: bool, n: nat, s: State) {
    exists acts :: Exec(historic, n, acts) == Some(s)
  }

  // ---- The channel ----

  /** The channel holds one request: no step puts another in its place, only a drop or the consumer empties it. */
  lemma SlotHoldsOne(historic: bool, s: State, a: Action)
    requires Enabled(s, a)
    ensures var t := Do(historic, s, a);
      && (s.slot.Some? && t.slot.Some? ==> t.slot == s.slot && t.lastPut == s.lastPut)
      && (s.slot.Some? && t.slot.None? ==> a.Drop? || a.Take? || a.Drain?)
      && (s.slot.None? && t.slot.Some? ==> (a.TrySend? || a.Resend?) && t.slot == t.lastPut == Some(a.c))
  {
  }

  // ---- At most one run ----

  ghost predicate AllDone(runs: seq<Run>, n: nat) {
    n <= |runs| && forall i | 0 <= i < n :: runs[i].done
  }

  predicate NewestCancelled(s: State) {
    |s.runs| > 0 ==> s.runs[|s.runs| - 1].cancelled
  }

  /** Every run but the newest was cancelled and has ended; the consumer's flags agree with the runs. */
  ghost predicate RunsInv(s: State) {
    && (forall i | 0 <= i < |s.runs| - 1 :: s.runs[i].done && s.runs[i].cancelled)
    && (s.running ==> |s.runs| > 0)
    && (s.consumer.Cancelling? || s.consumer.Joining? || s.consumer.Stopping? ==> s.running)
    && (s.consumer.Joining? || s.consumer.Draining? || s.consumer.Stopping? ==> NewestCancelled(s))
    && (!s.running ==> AllDone(s.runs, |s.runs|))
    && (s.consumer.Idle? && !s.running ==> |s.runs| == 0)
    && (s.shutdown ==> NewestCancelled(s))
    && (s.consumer.Idle? && s.running && !s.shutdown ==> !s.runs[|s.runs| - 1].cancelled)
    && (s.consumer.Draining? ==> !s.running)
    && (s.consumer.Stopped? ==> AllDone(s.runs, |s.runs|))
  }

  lemma ConsumerKeepsRuns(historic: bool, s: State, a: Action)
    requires RunsInv(s) && Enabled(s, a) && !CallerStep(a)
    ensures RunsInv(Do(historic, s, a))
  {
  }

  lemma StepKeepsRuns(historic: bool, s: State, a: Action)
    requires RunsInv(s) && Enabled(s, a)
    ensures RunsInv(Do(historic, s, a))
  {
    if CallerStep(a) {
      var t := Do(historic, s, a);
      assert t.runs == s.runs && t.consumer == s.consumer && t.running == s.running;
    } else {
      ConsumerKeepsRuns(historic, s, a);
    }
  }

  /** Under every schedule at most one run is alive, and none after the loop has returned. */
  lemma AtMostOneRun(historic: bool, n: nat, s: State)
    requires Reachable(historic, n, s)
    ensures
      && (forall i, j | 0 <= i < |s.runs| && 0 <= j < |s.runs| && !s.runs[i].done && !s.runs[j].done :: i == j)
      && (s.consumer.Stopped? ==> forall i | 0 <= i < |s.runs| :: s.runs[i].done)
  {
    ReachableInv(historic, n, s);
  }

  lemma OnlyJoinedRunsPrecede(historic: bool, s: State, a: Action)
    requires RunsInv(s) && Enabled(s, a) && |Do(historic, s, a).runs| > |s.runs|
    ensures forall i | 0 <= i < |s.runs| :: s.runs[i].done && s.runs[i].cancelled
  {
    assert a.Take? || a.Start?;
  }

  /** The step that starts a run finds every earlier run cancelled and ended. */
  lemma StartsAfterJoin(historic: bool, n: nat, s: State, a: Action)
    requires Reachable(historic, n, s) && Enabled(s, a) && |Do(historic, s, a).runs| > |s.runs|
    ensures forall i | 0 <= i < |s.runs| :: s.runs[i].done && s.runs[i].cancelled
  {
    hide *;
    ReachableInv(historic, n, s);
    OnlyJoinedRunsPrecede(historic, s, a);
  }

  /** Outside historic mode requests are taken and thrown away. */
  lemma OnlyHistoricRuns(n: nat, s: State)
    requires Reachable(false, n, s)
    ensures s.runs == []
  {
    var acts :| Exec(false, n, acts) == Some(s);
    NeverRuns(n, acts);
  }

  lemma {:induction false} NeverRuns(n: nat, acts: seq<Action>)
    ensures Exec(false, n, acts).Some? ==>
      Exec(false, n, acts).value.runs == [] && InHand(Exec(false, n, acts).value).None?
  {
    if acts != [] && Exec(false, n, acts).Some? {
      NeverRuns(n, acts[..|acts| - 1]);
      ExecInv(false, n, acts[..|acts| - 1]);
    }
  }

  // ---- Latest wins ----

  /** The request the consumer has taken and not yet started. */
  function InHand(s: State): Option<nat> {
    match s.consumer
    case Cancelling(day) => Some(day)
    case Joining(day) => Some(day)
    case Draining(day) => Some(day)
    case _ => None
  }

  predicate WasPut(s: State, c: nat) {
    c < |s.calls| && s.calls[c].put.Some?
  }

  /** The newest request that was put is later than the start of call `c`. */
  predicate Superseded(s: State, c: nat) {
    && s.lastPut.Some? && c < |s.calls| && WasPut(s, s.lastPut.value)
    && s.calls[s.lastPut.value].put.value > s.calls[c].began
  }

  predicate Begun(s: State, c: nat) {
    c < |s.calls| && !s.calls[c].stage.NotCalled?
  }

  ghost predicate CallInv(s: State, c: nat) {
    c < |s.calls| ==>
      var k := s.calls[c];
      && (k.put.Some? ==> k.stage.Returned? && k.began < k.put.value == k.ended)
      && (k.stage.NotCalled? ==> k.put.None?)
      && (!k.stage.NotCalled? ==> k.began < s.now)
      && (k.stage.Returned? ==> k.began < k.ended < s.now)
      // whatever was put is superseded, unless it is the newest
      && (k.put.Some? ==> s.lastPut.Some? && WasPut(s, s.lastPut.value))
      && (k.put.Some? && s.lastPut != Some(c) ==> k.put.value < s.calls[s.lastPut.value].put.value)
      // a call that gave up was superseded, and so is one that is about to
      && (k.stage.Returned? && k.put.None? ==> Superseded(s, c))
      && (k.stage.Replacing? && s.slot.Some? ==> Superseded(s, c))
  }

  /** Some call is between its drop and its second send. */
  ghost predicate SomeReplacing(s: State) {
    exists c: nat :: At(s, c, Replacing)
  }

  ghost predicate QueueInv(historic: bool, s: State) {
    && (forall c: nat :: CallInv(s, c))
    && NamesInv(s)
    && (historic ==> NewestIsSafe(s))
  }

  ghost predicate NamesInv(s: State) {
    && (s.lastPut.Some? ==> WasPut(s, s.lastPut.value))
    && (s.slot.Some? ==> s.lastPut == s.slot)
    && (InHand(s).Some? ==> WasPut(s, InHand(s).value))
    && (forall i | 0 <= i < |s.runs| :: WasPut(s, s.runs[i].request))
  }

  /** The newest put is in the slot, in hand, running, or was dropped by a call about to replace it. */
  ghost predicate NewestIsSafe(s: State) {
    || s.lastPut.None? || s.slot.Some? || InHand(s) == s.lastPut || SomeReplacing(s)
    || (InHand(s).None? && |s.runs| > 0 && s.lastPut == Some(s.runs[|s.runs| - 1].request))
  }

  predicate CallerStep(a: Action) {
    a.Invoke? || a.TrySend? || a.Drop? || a.Resend?
  }

  /** The consumer's steps leave every call alone and at most empty the slot. */
  lemma ConsumerKeepsCall(historic: bool, s: State, a: Action, c: nat)
    requires CallInv(s, c) && Enabled(s, a) && !CallerStep(a)
    ensures CallInv(Do(historic, s, a), c)
  {
    var t := Do(historic, s, a);
    assert t.calls == s.calls && t.lastPut == s.lastPut && (t.slot == s.slot || t.slot.None?);
  }

  /** A successful send makes its request the newest, later than every call's beginning. */
  lemma PutKeepsCall(s: State, p: nat, c: nat)
    requires CallInv(s, c) && CallInv(s, p) && p < |s.calls| && s.slot.None?
    requires s.calls[p].stage.Trying? || s.calls[p].stage.Replacing?
    requires s.lastPut.Some? ==> WasPut(s, s.lastPut.value) && CallInv(s, s.lastPut.value)
    ensures CallInv(Put(s, p).(now := s.now + 1), c)
  {
  }

  /** Any other step of a call only moves that call. */
  lemma MoveKeepsCall(historic: bool, s: State, a: Action, c: nat)
    requires CallInv(s, c) && Enabled(s, a) && CallerStep(a) && CallInv(s, a.c)
    requires (a.TrySend? || a.Resend?) ==> s.slot.Some?
    requires s.lastPut.Some? ==> WasPut(s, s.lastPut.value) && CallInv(s, s.lastPut.value)
    ensures CallInv(Do(historic, s, a), c)
  {
    var t := Do(historic, s, a);
    assert t.lastPut == s.lastPut && (t.slot == s.slot || t.slot.None?);
    if s.lastPut.Some? {
      assert t.calls[s.lastPut.value] == s.calls[s.lastPut.value] || s.lastPut.value == a.c;
    }
  }

  lemma StepKeepsCall(historic: bool, s: State, a: Action, c: nat)
    requires QueueInv(historic, s) && Enabled(s, a)
    ensures CallInv(Do(historic, s, a), c)
  {
    assert CallInv(s, c);
    if s.lastPut.Some? {
      assert CallInv(s, s.lastPut.value);
    }
    if !CallerStep(a) {
      ConsumerKeepsCall(historic, s, a, c);
    } else {
      assert CallInv(s, a.c);
      if (a.TrySend? || a.Resend?) && s.slot.None? {
        PutKeepsCall(s, a.c, c);
      } else {
        MoveKeepsCall(historic, s, a, c);
      }
    }
  }

  /** A call leaves the newest put queued, or drops it on its way to replacing it. */
  lemma CallerKeepsNewest(s: State, a: Action)
    requires NamesInv(s) && NewestIsSafe(s) && Enabled(s, a) && CallerStep(a)
    ensures NewestIsSafe(Do(true, s, a))
  {
    var t := Do(true, s, a);
    if a.Drop? {
      assert At(t, a.c, Replacing);
    } else if SomeReplacing(s) {
      var c: nat :| At(s, c, Replacing);
      assert At(t, c, Replacing) || (a.Resend? && a.c == c);
    }
  }

  /** The consumer moves the newest put from the slot into its hand and from there into a run. */
  lemma ConsumerKeepsNewest(s: State, a: Action)
    requires NamesInv(s) && NewestIsSafe(s) && Enabled(s, a) && !CallerStep(a)
    ensures NewestIsSafe(Do(true, s, a))
  {
    if SomeReplacing(s) {
      var c: nat :| At(s, c, Replacing);
      assert At(Do(true, s, a), c, Replacing);
    }
  }

  lemma StepKeepsNewest(s: State, a: Action)
    requires QueueInv(true, s) && Enabled(s, a)
    ensures NewestIsSafe(Do(true, s, a))
  {
    if CallerStep(a) {
      CallerKeepsNewest(s, a);
    } else {
      ConsumerKeepsNewest(s, a);
    }
  }

  /** What was put stays put, at its moment. */
  lemma PutsStay(historic: bool, s: State, a: Action, c: nat)
    requires Enabled(s, a) && (CallerStep(a) ==> CallInv(s, a.c)) && WasPut(s, c)
    ensures WasPut(Do(historic, s, a), c) && Do(historic, s, a).calls[c].put == s.calls[c].put
  {
  }

  /** The names a step leaves behind are the old ones, or the request it just put. */
  lemma NamesComeFrom(historic: bool, s: State, a: Action)
    requires Enabled(s, a)
    ensures var t := Do(historic, s, a);
      && (t.lastPut == s.lastPut || (CallerStep(a) && t.lastPut == Some(a.c) && WasPut(t, a.c)))
      && (t.slot == s.slot || t.slot.None? || (CallerStep(a) && t.slot == t.lastPut == Some(a.c)))
      && (t.slot.Some? && t.slot == s.slot ==> t.lastPut == s.lastPut)
      && (InHand(t) == InHand(s) || InHand(t).None? || InHand(t) == s.slot)
      && forall i | 0 <= i < |t.runs| ::
           (i < |s.runs| && t.runs[i].request == s.runs[i].request)
           || InHand(s) == Some(t.runs[i].request) || s.slot == Some(t.runs[i].request)
  {
  }

  /** Every name the consumer or a run holds remains a put request. */
  lemma StepKeepsNames(historic: bool, s: State, a: Action)
    requires QueueInv(historic, s) && Enabled(s, a)
    ensures NamesInv(Do(historic, s, a))
  {
    var t := Do(historic, s, a);
    NamesComeFrom(historic, s, a);
    if CallerStep(a) {
      assert CallInv(s, a.c);
    }
    forall c: nat | WasPut(s, c) ensures WasPut(t, c) {
      PutsStay(historic, s, a, c);
    }
    hide Do, Effect, Enabled;
  }

  lemma StepKeepsQueue(historic: bool, s: State, a: Action)
    requires QueueInv(historic, s) && Enabled(s, a)
    ensures QueueInv(historic, Do(historic, s, a))
  {
    StepKeepsNames(historic, s, a);
    if historic {
      StepKeepsNewest(s, a);
    }
    forall c: nat ensures CallInv(Do(historic, s, a), c) {
      StepKeepsCall(historic, s, a, c);
    }
  }

  /** No call is in progress and the consumer has caught up. */
  ghost predicate Settled(s: State) {
    && (forall c | 0 <= c < |s.calls| :: s.calls[c].stage.NotCalled? || s.calls[c].stage.Returned?)
    && s.slot.None? && s.consumer.Idle?
  }

  /**
   Once every call has returned and the consumer has caught up, the newest run serves
   a request whose call had not ended when any other call began, and that run is
   cancelled only if the server is shutting down.
   */
  lemma LatestWins(n: nat, s: State, c: nat)
    requires Reachable(true, n, s) && Settled(s) && Begun(s, c)
    ensures
      && |s.runs| > 0
      && var w := s.runs[|s.runs| - 1].request;
         w < |s.calls| && s.calls[w].stage.Returned? && s.calls[c].began < s.calls[w].ended
         && (s.runs[|s.runs| - 1].cancelled <==> s.shutdown)
  {
    ReachableInv(true, n, s);
    assert CallInv(s, c);
    assert CallInv(s, s.lastPut.value);
  }

  ghost predicate Served(s: State, c: nat) {
    exists i | 0 <= i < |s.runs| :: s.runs[i].request == c
  }

  /** Another request was put after call `c` began. */
  ghost predicate PutSince(s: State, c: nat) {
    exists d: nat | WasPut(s, d) && d != c :: c < |s.calls| && s.calls[d].put.value > s.calls[c].began
  }

  /**
   At any moment a returned call's request is queued, in hand, has been given a run,
   or is superseded by a request put after that call began; the one other possibility
   is that a call has just dropped it and is about to replace it.  Once things have
   settled, it has been given a run or is superseded.
   */
  lemma NoRequestLost(n: nat, s: State, c: nat)
    requires Reachable(true, n, s) && At(s, c, Returned)
    ensures
      && (s.slot == Some(c) || InHand(s) == Some(c) || Served(s, c) || PutSince(s, c) || SomeReplacing(s))
      && (Settled(s) ==> Served(s, c) || PutSince(s, c))
  {
    ReachableInv(true, n, s);
    assert CallInv(s, c);
    if s.lastPut == Some(c) {
      if |s.runs| > 0 && s.runs[|s.runs| - 1].request == c {
        assert Served(s, c);
      }
    } else {
      var d := s.lastPut.value;
      assert WasPut(s, d) && d != c && s.calls[d].put.value > s.calls[c].began;
    }
  }

  // ---- What a run is started for ----

  /**
   A run is started for the newest request put so far, whatever else was queued on the
   way; the one exception is that a call has just dropped that request and is about to
   replace it.
   */
  lemma StartsTheNewest(n: nat, s: State, a: Action)
    requires Reachable(true, n, s) && Enabled(s, a) && |Do(true, s, a).runs| > |s.runs|
    ensures var t := Do(true, s, a);
      SomeReplacing(s) || s.lastPut == Some(t.runs[|t.runs| - 1].request)
  {
    ReachableInv(true, n, s);
    if a.Start? {
      assert CallInv(s, s.consumer.latest);
    } else {
      assert a.Take?;
    }
  }

  /** The moment at which a request was put, before time began if it never was. */
  function PutAt(s: State, c: nat): int {
    if WasPut(s, c) then s.calls[c].put.value else -1
  }

  /** Requests move from the slot through the consumer's hand into runs without overtaking. */
  ghost predicate OrderInv(s: State) {
    && (forall i, j | 0 <= i < j < |s.runs| :: PutAt(s, s.runs[i].request) < PutAt(s, s.runs[j].request))
    && (InHand(s).Some? ==> forall i | 0 <= i < |s.runs| :: PutAt(s, s.runs[i].request) < PutAt(s, InHand(s).value))
    && (s.slot.Some? ==> forall i | 0 <= i < |s.runs| :: PutAt(s, s.runs[i].request) < PutAt(s, s.slot.value))
    && (s.slot.Some? && InHand(s).Some? ==> PutAt(s, InHand(s).value) < PutAt(s, s.slot.value))
  }

  lemma PutsArePast(historic: bool, s: State, c: nat)
    requires QueueInv(historic, s)
    ensures PutAt(s, c) < s.now
  {
    assert CallInv(s, c);
  }

  /** Requests move on from the slot to the hand and from there, or at once, into a run. */
  lemma ConsumerMoves(historic: bool, s: State, a: Action)
    requires RunsInv(s) && Enabled(s, a) && !CallerStep(a)
    ensures var t := Do(historic, s, a);
      && t.calls == s.calls && (t.slot == s.slot || t.slot.None?)
      && (InHand(t) == InHand(s) || InHand(t).None? || (InHand(t) == s.slot && t.slot.None?))
      && (|t.runs| == |s.runs| || (|t.runs| == |s.runs| + 1 && InHand(t).None?))
      && (forall i | 0 <= i < |s.runs| :: t.runs[i].request == s.runs[i].request)
      && (|t.runs| > |s.runs| ==>
            var x := Some(t.runs[|s.runs|].request); InHand(s) == x || (s.slot == x && t.slot.None?))
  {
  }

  lemma ConsumerKeepsOrder(historic: bool, s: State, a: Action)
    requires RunsInv(s) && OrderInv(s) && Enabled(s, a) && !CallerStep(a)
    ensures OrderInv(Do(historic, s, a))
  {
    ConsumerMoves(historic, s, a);
    assert forall c: nat :: PutAt(Do(historic, s, a), c) == PutAt(s, c);
    hide PutAt, Do, Enabled, RunsInv;
  }

  /** A call's step changes no run, and what it puts is later than all that was put before. */
  lemma CallerKeepsOrder(historic: bool, s: State, a: Action)
    requires QueueInv(historic, s) && OrderInv(s) && Enabled(s, a) && CallerStep(a)
    ensures OrderInv(Do(historic, s, a))
  {
    var t := Do(historic, s, a);
    assert CallInv(s, a.c);
    forall c: nat | WasPut(s, c) ensures PutAt(t, c) == PutAt(s, c) && PutAt(s, c) < s.now {
      PutsStay(historic, s, a, c);
      PutsArePast(historic, s, c);
    }
    assert t.runs == s.runs && InHand(t) == InHand(s);
    assert t.slot == s.slot || t.slot.None? || (t.slot == Some(a.c) && PutAt(t, a.c) == s.now);
    hide PutAt, Do, CallInv;
  }

  lemma {:induction false} ExecInv(historic: bool, n: nat, acts: seq<Action>)
    requires Exec(historic, n, acts).Some?
    ensures var s := Exec(historic, n, acts).value; RunsInv(s) && QueueInv(historic, s) && OrderInv(s)
  {
    if acts != [] {
      var before, a := acts[..|acts| - 1], acts[|acts| - 1];
      var s := Exec(historic, n, before).value;
      ExecInv(historic, n, before);
      StepKeepsRuns(historic, s, a);
      StepKeepsQueue(historic, s, a);
      if CallerStep(a) {
        CallerKeepsOrder(historic, s, a);
      } else {
        ConsumerKeepsOrder(historic, s, a);
      }
      hide RunsInv, QueueInv, OrderInv, Do;
    }
  }

  lemma ReachableInv(historic: bool, n: nat, s: State)
    requires Reachable(historic, n, s)
    ensures RunsInv(s) && QueueInv(historic, s) && OrderInv(s)
  {
    var acts :| Exec(historic, n, acts) == Some(s);
    ExecInv(historic, n, acts);
  }

  /** Runs serve requests in the order in which they were put, hence no request twice. */
  lemma RunsInPutOrder(historic: bool, n: nat, s: State, i: nat, j: nat)
    requires Reachable(historic, n, s) && i < j < |s.runs|
    ensures var x, y := s.runs[i].request, s.runs[j].request;
      && x < |s.calls| && y < |s.calls| && s.calls[x].put.Some? && s.calls[y].put.Some?
      && s.calls[x].put.value < s.calls[y].put.value
  {
    ReachableInv(historic, n, s);
    assert WasPut(s, s.runs[i].request) && WasPut(s, s.runs[j].request);
  }

  // ---- Progress and termination ----

  /** Short of settling or stopping, someone other than a new caller or the operator can always move. */
  lemma NeverStuck(historic: bool, n: nat, s: State)
    requires Reachable(historic, n, s) && !Settled(s) && !s.consumer.Stopped?
    ensures exists a :: Enabled(s, a) && !a.Invoke? && !a.Shutdown?
  {
    ReachableInv(historic, n, s);
    if c: nat :| c < |s.calls| && !s.calls[c].stage.NotCalled? && !s.calls[c].stage.Returned? {
      var stage := s.calls[c].stage;
      assert Enabled(s, if stage.Trying? then TrySend(c) else if stage.Dropping? then Drop(c) else Resend(c));
    } else {
      match s.consumer
      case Idle => assert Enabled(s, Take);
      case Cancelling(_) => assert Enabled(s, CancelRun);
      case Joining(_) => assert Enabled(s, if RunAlive(s) then RunEnds else Join);
      case Draining(_) => assert Enabled(s, if s.slot.Some? then Drain else Start);
      case Stopping => assert Enabled(s, if RunAlive(s) then RunEnds else StopJoined);
      case Stopped =>
    }
  }

  /** The place of a call in its code; a call that has returned is behind every other. */
  function Place(stage: Stage): nat {
    match stage
    case NotCalled => 0
    case Trying => 1
    case Dropping => 2
    case Replacing => 3
    case Returned => 4
  }

  /** A call's step brings that call forward and touches no other; the consumer's steps touch none. */
  lemma StepMovesOneCall(historic: bool, s: State, a: Action, c: nat)
    requires Enabled(s, a) && c < |s.calls|
    ensures
      var t := Do(historic, s, a);
      && |t.calls| == |s.calls|
      && (CallerStep(a) && a.c == c ==> Place(t.calls[c].stage) > Place(s.calls[c].stage))
      && (CallerStep(a) && a.c != c ==> t.calls[c] == s.calls[c])
      && (!CallerStep(a) ==> t.calls == s.calls)
  {
  }

  /** A call waits for nobody: until it has returned it can take its next step in any state whatever. */
  lemma CallsNeverWait(s: State, c: nat)
    requires c < |s.calls| && !s.calls[c].stage.Returned?
    ensures exists a :: Enabled(s, a) && CallerStep(a) && a.c == c
  {
    match s.calls[c].stage
    case NotCalled => assert Enabled(s, Invoke(c));
    case Trying => assert Enabled(s, TrySend(c));
    case Dropping => assert Enabled(s, Drop(c));
    case Replacing => assert Enabled(s, Resend(c));
  }

  function CallWork(k: Call): nat {
    match k.stage
    case NotCalled => 13
    case Trying => 12
    case Dropping => 11
    case Replacing => 10
    case Returned => 0
  }

  function CallsWork(calls: seq<Call>): nat {
    if calls == [] then 0 else CallWork(calls[0]) + CallsWork(calls[1..])
  }

  lemma {:induction false} CallsWorkUpdate(calls: seq<Call>, c: nat, k: Call)
    requires c < |calls|
    ensures CallsWork(calls[c := k]) + CallWork(calls[c]) == CallsWork(calls) + CallWork(k)
  {
    if c == 0 {
      assert calls[c := k][1..] == calls[1..];
    } else {
      CallsWorkUpdate(calls[1..], c - 1, k);
      assert calls[c := k][1..] == calls[1..][c - 1 := k];
    }
  }

  function ConsumerWork(c: Consumer): nat {
    match c
    case Idle => 2
    case Cancelling(_) => 7
    case Joining(_) => 6
    case Draining(_) => 5
    case Stopping => 1
    case Stopped => 0
  }

  /** Steps still possible, at most. */
  function Work(s: State): nat {
    CallsWork(s.calls) + (if s.slot.Some? then 6 else 0) + ConsumerWork(s.consumer)
    + (if RunAlive(s) then 1 else 0) + (if s.shutdown then 0 else 1)
  }

  lemma CallerWorks(historic: bool, s: State, a: Action)
    requires Enabled(s, a) && CallerStep(a)
    ensures Work(Do(historic, s, a)) < Work(s)
  {
    CallsWorkUpdate(s.calls, a.c, Do(historic, s, a).calls[a.c]);
  }

  lemma ConsumerWorks(historic: bool, s: State, a: Action)
    requires RunsInv(s) && Enabled(s, a) && !CallerStep(a)
    ensures Work(Do(historic, s, a)) < Work(s)
  {
    assert Do(historic, s, a).calls == s.calls;
  }

  lemma {:induction false} InitialWork(calls: seq<Call>)
    requires forall i | 0 <= i < |calls| :: calls[i].stage.NotCalled?
    ensures CallsWork(calls) == 13 * |calls|
  {
    if calls != [] {
      InitialWork(calls[1..]);
    }
  }

  lemma {:induction false} ScheduleWork(historic: bool, n: nat, acts: seq<Action>)
    requires Exec(historic, n, acts).Some?
    ensures |acts| + Work(Exec(historic, n, acts).value) <= Work(Init(n))
  {
    if acts != [] {
      var before := acts[..|acts| - 1];
      ScheduleWork(historic, n, before);
      ExecInv(historic, n, before);
      if CallerStep(acts[|acts| - 1]) {
        CallerWorks(historic, Exec(historic, n, before).value, acts[|acts| - 1]);
      } else {
        ConsumerWorks(historic, Exec(historic, n, before).value, acts[|acts| - 1]);
      }
    }
  }

  /** `n` calls give rise to boundedly many steps, so the consumer does catch up. */
  lemma SchedulesAreBounded(historic: bool, n: nat, acts: seq<Action>)
    requires Exec(historic, n, acts).Some?
    ensures |acts| <= 13 * n + 3
  {
    ScheduleWork(historic, n, acts);
    InitialWork(Init(n).calls);
  }
}
