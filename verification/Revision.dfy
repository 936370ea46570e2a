/**
  Revisions of the database as subscribers see them: internal/revision/revision.go and the stream of
  internal/rpc/revision.go. The broadcaster is modelled by the steps that hold or do not hold its mutex; the
  watcher's loop by its readings.
 */
module Revision {
  import opened Status

  // ----- the watcher -----

  /** What a round of the loop saw: nobody subscribed, a failed reading, or a data version. */
  datatype Event = Idle | Unread | Read(version: int)

  /** A reading that differs from the one before it, with nothing but failed readings in between. */
  predicate IsChange(events: seq<Event>, i: nat)
    requires i < |events|
  {
    events[i].Read? && exists j :: 0 <= j < i && IsReadingBefore(events, j, i) && events[j] != events[i]
  }

  predicate IsReadingBefore(events: seq<Event>, j: nat, i: nat)
    requires j < i <= |events|
  {
    events[j].Read? && forall k :: j < k < i ==> events[k].Unread?
  }

  function Changes(events: seq<Event>, n: nat): nat
    requires n <= |events|
  {
    if n == 0 then 0 else Changes(events, n - 1) + if IsChange(events, n - 1) then 1 else 0
  }

  /** The value Run compares with: the last reading of the stretch, if there is one. */
  ghost predicate IsBaseline(events: seq<Event>, i: nat, ok: bool, baseline: int)
    requires i <= |events|
  {
    if ok then exists j :: 0 <= j < i && IsReadingBefore(events, j, i) && events[j] == Read(baseline)
    else forall j :: 0 <= j < i ==> !IsReadingBefore(events, j, i)
  }

  /** In a stretch there is one last reading. */
  lemma OneReadingBefore(events: seq<Event>, j: nat, k: nat, i: nat)
    requires j < i <= |events| && k < i && IsReadingBefore(events, j, i) && IsReadingBefore(events, k, i)
    ensures j == k
  {
  }

  lemma BaselineDecides(events: seq<Event>, i: nat, ok: bool, baseline: int)
    requires i < |events| && events[i].Read? && IsBaseline(events, i, ok, baseline)
    ensures IsChange(events, i) <==> ok && events[i] != Read(baseline)
    ensures IsBaseline(events, i + 1, true, events[i].version)
  {
    if ok {
      var j :| 0 <= j < i && IsReadingBefore(events, j, i) && events[j] == Read(baseline);
      if IsChange(events, i) {
        var k :| 0 <= k < i && IsReadingBefore(events, k, i) && events[k] != events[i];
        OneReadingBefore(events, j, k, i);
      }
    }
    assert IsReadingBefore(events, i, i + 1);
  }

  lemma BaselineSurvives(events: seq<Event>, i: nat, ok: bool, baseline: int)
    requires i < |events| && events[i].Unread? && IsBaseline(events, i, ok, baseline)
    ensures IsBaseline(events, i + 1, ok, baseline)
  {
    if ok {
      var j :| 0 <= j < i && IsReadingBefore(events, j, i) && events[j] == Read(baseline);
      assert IsReadingBefore(events, j, i + 1);
    } else {
      var n := i + 1;
      forall j | 0 <= j < n
        ensures !IsReadingBefore(events, j, n)
      {
        if j < i && IsReadingBefore(events, j, n) {
          assert IsReadingBefore(events, j, i);
        }
      }
    }
  }

  lemma IdleEndsStretch(events: seq<Event>, i: nat, baseline: int)
    requires i < |events| && events[i].Idle?
    ensures IsBaseline(events, i + 1, false, baseline)
  {
  }

  /** Watcher.Run: the first event is the reading before the loop; the published values count the changes. */
  method Run(events: seq<Event>) returns (revision: nat, published: seq<nat>, watching: bool)
    requires |events| >= 1 && !events[0].Idle?
    ensures revision == 1 + Changes(events, |events|)
    ensures |published| == revision - 1
    ensures forall k :: 0 <= k < |published| ==> published[k] == k + 2
    ensures watching <==> !events[|events| - 1].Unread?
  {
    var baseline, ok := if events[0].Read? then events[0].version else 0, events[0].Read?;
    watching := ok;
    revision, published := 1, [];
    assert IsBaseline(events, 1, ok, baseline) by {
      if ok {
        assert IsReadingBefore(events, 0, 1);
      }
    }
    for i := 1 to |events|
      invariant revision == 1 + Changes(events, i) && |published| == revision - 1
      invariant forall k :: 0 <= k < |published| ==> published[k] == k + 2
      invariant IsBaseline(events, i, ok, baseline)
      invariant watching <==> !events[i - 1].Unread?
    {
      if events[i].Idle? {
        IdleEndsStretch(events, i, baseline);
        watching, ok := true, false;
        continue;
      }
      watching := events[i].Read?;
      if !watching {
        BaselineSurvives(events, i, ok, baseline);
        continue;
      }
      BaselineDecides(events, i, ok, baseline);
      var current := events[i].version;
      if !ok {
        baseline, ok := current, true;
        continue;
      }
      if current == baseline {
        continue;
      }
      baseline := current;
      revision := revision + 1;
      published := published + [revision];
    }
  }

  // ----- the broadcaster -----

  /** A channel of capacity one. */
  datatype Channel = Channel(slot: Option<nat>, closed: bool)

  /** Who holds the mutex: a publish that still has subscribers to serve, having drained one, or a close. */
  datatype Mutex =
    | Free
    | Publishing(todo: set<nat>, drained: Option<nat>)
    | Closing(todo: set<nat>)

  /** held is what a stream was handed last, sent what it passed on; revision is the watcher's own count. */
  datatype State = State(
    current: nat, closed: bool, revision: nat, live: set<nat>, nextId: nat, mutex: Mutex,
    channels: map<nat, Channel>, held: map<nat, nat>, sent: map<nat, seq<nat>>)

  datatype Action =
    | Subscribe
    | Cancel(id: nat)
    | StartPublish
    | Drain(id: nat)
    | Send(id: nat)
    | EndPublish
    | StartClose
    | CloseOne(id: nat)
    | EndClose
    | Receive(id: nat)
    | Heartbeat(id: nat)

  const INITIAL: State := State(1, false, 1, {}, 0, Free, map[], map[], map[])

  predicate Enabled(s: State, a: Action) {
    match a
    case Subscribe => s.mutex.Free?
    case Cancel(id) => s.mutex.Free?
    case StartPublish => s.mutex.Free?
    case Drain(id) => s.mutex.Publishing? && s.mutex.drained.None? && id in s.mutex.todo && id in s.channels
    case Send(id) => s.mutex.Publishing? && s.mutex.drained == Some(id) && id in s.channels
    case EndPublish => s.mutex.Publishing? && s.mutex.drained.None? && s.mutex.todo == {}
    case StartClose => s.mutex.Free?
    case CloseOne(id) => s.mutex.Closing? && id in s.mutex.todo && id in s.channels
    case EndClose => s.mutex.Closing? && s.mutex.todo == {}
    case Receive(id) => id in s.channels && s.channels[id].slot.Some? && id in s.sent
    case Heartbeat(id) => id in s.held && id in s.sent
  }

  /** One step; the slot of a channel may be read by its stream between any two steps of a publish. */
  function Next(s: State, a: Action): State
    requires Enabled(s, a)
  {
    match a
    case Subscribe =>
      s.(nextId := s.nextId + 1, channels := s.channels[s.nextId := Channel(None, s.closed)],
        held := s.held[s.nextId := s.current], sent := s.sent[s.nextId := [s.current]],
        live := if s.closed then s.live else s.live + {s.nextId})
    case Cancel(id) => s.(live := s.live - {id})
    case StartPublish =>
      if s.closed then s.(revision := s.revision + 1)
      else s.(revision := s.revision + 1, current := s.revision + 1, mutex := Publishing(s.live, None))
    case Drain(id) =>
      s.(channels := s.channels[id := s.channels[id].(slot := None)],
        mutex := Publishing(s.mutex.todo, Some(id)))
    case Send(id) =>
      s.(channels := if s.channels[id].slot.None? then s.channels[id := s.channels[id].(slot := Some(s.current))]
                     else s.channels,
        mutex := Publishing(s.mutex.todo - {id}, None))
    case EndPublish => s.(mutex := Free)
    case StartClose => if s.closed then s else s.(closed := true, mutex := Closing(s.live))
    case CloseOne(id) =>
      s.(channels := s.channels[id := s.channels[id].(closed := true)], live := s.live - {id},
        mutex := Closing(s.mutex.todo - {id}))
    case EndClose => s.(mutex := Free)
    case Receive(id) =>
      var v := s.channels[id].slot.value;
      s.(channels := s.channels[id := s.channels[id].(slot := None)], held := s.held[id := v],
        sent := s.sent[id := s.sent[id] + [v]])
    case Heartbeat(id) => s.(sent := s.sent[id := s.sent[id] + [s.held[id]]])
  }

  predicate HoldsUp(s: State, id: nat) {
    id in s.channels && id in s.held
  }

  /** The subscriber has the current revision in its slot, or was handed it already. */
  predicate UpToDate(s: State, id: nat)
    requires HoldsUp(s, id)
  {
    s.channels[id].slot == Some(s.current) || (s.channels[id].slot.None? && s.held[id] == s.current)
  }

  predicate NeverDecreases(sent: seq<nat>) {
    forall i, j :: 0 <= i <= j < |sent| ==> sent[i] <= sent[j]
  }

  /** What one stream has seen: its values rise, and whatever waits in its slot is not older. */
  predicate StreamSound(s: State, id: nat)
    requires HoldsUp(s, id) && id in s.sent
  {
    && |s.sent[id]| >= 1 && NeverDecreases(s.sent[id]) && s.sent[id][|s.sent[id]| - 1] == s.held[id]
    && s.held[id] <= s.current
    && (s.channels[id].slot.Some? ==> s.held[id] <= s.channels[id].slot.value <= s.current)
  }

  predicate WellFormed(s: State) {
    && s.channels.Keys == s.held.Keys == s.sent.Keys && s.live <= s.channels.Keys
    && (forall id :: id in s.channels ==> id < s.nextId)
    && (!s.closed ==> s.revision == s.current)
  }

  predicate MutexSound(s: State)
    requires WellFormed(s)
  {
    match s.mutex
    case Free => (s.closed ==> s.live == {}) && forall id :: id in s.live ==> UpToDate(s, id)
    case Publishing(todo, drained) =>
      && !s.closed && todo <= s.live
      && (forall id :: id in s.live && id !in todo ==> UpToDate(s, id))
      && (drained.Some? ==> drained.value in todo && s.channels[drained.value].slot.None?)
    case Closing(todo) => s.closed && todo == s.live
  }

  predicate Invariant(s: State) {
    && WellFormed(s)
    && (forall id :: id in s.channels ==> StreamSound(s, id))
    && (forall id :: id in s.live ==> !s.channels[id].closed)
    && MutexSound(s)
  }

  lemma SentGrows(sent: seq<nat>, v: nat)
    requires |sent| >= 1 && NeverDecreases(sent) && sent[|sent| - 1] <= v
    ensures NeverDecreases(sent + [v])
  {
  }

  lemma StepKeepsWellFormed(s: State, a: Action)
    requires Invariant(s) && Enabled(s, a)
    ensures WellFormed(Next(s, a))
  {
  }

  /** Only receiving and the heartbeat of a stream change what it has sent. */
  lemma StreamElsewhere(s: State, a: Action, id: nat)
    requires Invariant(s) && Enabled(s, a) && WellFormed(Next(s, a)) && id in s.channels
    requires a != Receive(id) && a != Heartbeat(id)
    ensures Next(s, a).sent[id] == s.sent[id] && Next(s, a).held[id] == s.held[id] && s.current <= Next(s, a).current
    ensures var slot := Next(s, a).channels[id].slot;
            slot == s.channels[id].slot || slot.None? || slot.value == Next(s, a).current
  {
    hide StreamSound, MutexSound;
  }

  lemma StreamStarts(s: State, a: Action, id: nat)
    requires Invariant(s) && Enabled(s, a) && WellFormed(Next(s, a)) && id in Next(s, a).channels
    requires id !in s.channels
    ensures StreamSound(Next(s, a), id)
  {
    assert a == Subscribe && id == s.nextId;
    hide MutexSound;
    assert NeverDecreases([s.current]);
  }

  lemma StreamSends(s: State, a: Action, id: nat)
    requires Invariant(s) && Enabled(s, a) && WellFormed(Next(s, a)) && id in s.channels
    requires a == Receive(id) || a == Heartbeat(id)
    ensures StreamSound(Next(s, a), id)
  {
    hide MutexSound, UpToDate, NeverDecreases;
    assert StreamSound(s, id);
    SentGrows(s.sent[id], if a.Receive? then s.channels[id].slot.value else s.held[id]);
  }

  lemma StepKeepsStreams(s: State, a: Action, id: nat)
    requires Invariant(s) && Enabled(s, a) && WellFormed(Next(s, a)) && id in Next(s, a).channels
    ensures StreamSound(Next(s, a), id)
  {
    hide MutexSound, Next, NeverDecreases;
    if id !in s.channels {
      StreamStarts(s, a, id);
    } else if a == Receive(id) || a == Heartbeat(id) {
      StreamSends(s, a, id);
    } else {
      StreamElsewhere(s, a, id);
      assert StreamSound(s, id);
    }
  }

  lemma StepKeepsMutex(s: State, a: Action)
    requires Invariant(s) && Enabled(s, a) && WellFormed(Next(s, a))
    ensures MutexSound(Next(s, a))
    ensures forall id :: id in Next(s, a).live ==> !Next(s, a).channels[id].closed
  {
    hide StreamSound;
  }

  lemma StepKeepsInvariant(s: State, a: Action)
    requires Invariant(s) && Enabled(s, a)
    ensures Invariant(Next(s, a))
  {
    StepKeepsWellFormed(s, a);
    forall id | id in Next(s, a).channels
      ensures StreamSound(Next(s, a), id)
    {
      StepKeepsStreams(s, a, id);
    }
    StepKeepsMutex(s, a);
  }

  /** Any interleaving of the steps. */
  predicate IsExecution(states: seq<State>, actions: seq<Action>) {
    && |states| == |actions| + 1 && states[0] == INITIAL
    && forall i {:trigger actions[i]} :: 0 <= i < |actions| ==>
         Enabled(states[i], actions[i]) && states[i + 1] == Next(states[i], actions[i])
  }

  lemma {:induction false} EveryStateSound(states: seq<State>, actions: seq<Action>, i: nat)
    requires IsExecution(states, actions) && i < |states|
    ensures Invariant(states[i])
  {
    if i > 0 {
      EveryStateSound(states, actions, i - 1);
      assert actions[i - 1] == actions[i - 1];
      StepKeepsInvariant(states[i - 1], actions[i - 1]);
    }
  }

  /** Whenever the mutex is free, every live subscriber has the current revision waiting or was handed it. */
  lemma LatestIsNeverLost(states: seq<State>, actions: seq<Action>, i: nat, id: nat)
    requires IsExecution(states, actions) && i < |states| && states[i].mutex.Free? && id in states[i].live
    ensures HoldsUp(states[i], id) && UpToDate(states[i], id) && !states[i].channels[id].closed
  {
    EveryStateSound(states, actions, i);
  }

  /** The send of a publish finds the slot free and the channel open. */
  lemma SendNeverFails(states: seq<State>, actions: seq<Action>, i: nat)
    requires IsExecution(states, actions) && i < |actions| && actions[i].Send?
    ensures var c := states[i].channels; var id := actions[i].id;
            id in c && c[id].slot.None? && !c[id].closed
            && states[i + 1].channels[id].slot == Some(states[i].current)
  {
    EveryStateSound(states, actions, i);
  }

  /** What one stream sends never goes back. */
  lemma StreamsNeverDecrease(states: seq<State>, actions: seq<Action>, i: nat, id: nat)
    requires IsExecution(states, actions) && i < |states| && id in states[i].sent
    ensures NeverDecreases(states[i].sent[id])
  {
    EveryStateSound(states, actions, i);
    assert StreamSound(states[i], id);
  }

  /** A stream that empties its slot while no publish is under way has caught up. */
  lemma ReceivingCatchesUp(states: seq<State>, actions: seq<Action>, i: nat)
    requires IsExecution(states, actions) && i < |actions| && actions[i].Receive?
    requires states[i].mutex.Free? && actions[i].id in states[i].live
    ensures states[i + 1].held[actions[i].id] == states[i].current
  {
    EveryStateSound(states, actions, i);
    assert UpToDate(states[i], actions[i].id);
  }

  // ----- the number of open streams -----

  /** openStreams counts every call between its Add(1) and its Add(-1). */
  datatype Gate = Gate(counter: nat, undecided: map<nat, nat>, admitted: nat, rejected: nat)

  datatype GateAction = Enter(call: nat) | Decide(call: nat) | LeaveRejected | LeaveAdmitted

  predicate GateEnabled(g: Gate, a: GateAction) {
    match a
    case Enter(call) => call !in g.undecided
    case Decide(call) => call in g.undecided
    case LeaveRejected => g.rejected > 0 && g.counter > 0
    case LeaveAdmitted => g.admitted > 0 && g.counter > 0
  }

  /** The value Add returned decides, even if other calls have entered or left since. */
  function GateNext(g: Gate, a: GateAction, limit: nat): Gate
    requires GateEnabled(g, a)
  {
    match a
    case Enter(call) => g.(counter := g.counter + 1, undecided := g.undecided[call := g.counter + 1])
    case Decide(call) =>
      var value := g.undecided[call];
      var rest := g.undecided - {call};
      if value > limit then g.(undecided := rest, rejected := g.rejected + 1)
      else g.(undecided := rest, admitted := g.admitted + 1)
    case LeaveRejected => g.(counter := g.counter - 1, rejected := g.rejected - 1)
    case LeaveAdmitted => g.(counter := g.counter - 1, admitted := g.admitted - 1)
  }

  /** Calls that will be admitted: they saw a value within the limit. */
  function Passing(g: Gate, limit: nat): set<nat> {
    set c | c in g.undecided && g.undecided[c] <= limit
  }

  predicate GateSound(g: Gate, limit: nat) {
    && g.counter == |g.undecided.Keys| + g.admitted + g.rejected
    && |Passing(g, limit)| + g.admitted <= limit
  }

  lemma EnterHolds(g: Gate, call: nat, limit: nat)
    requires GateSound(g, limit) && call !in g.undecided
    ensures GateSound(GateNext(g, Enter(call), limit), limit)
  {
    var next := GateNext(g, Enter(call), limit);
    assert next.undecided.Keys == g.undecided.Keys + {call};
    if g.counter + 1 <= limit {
      assert Passing(next, limit) == Passing(g, limit) + {call};
      PassingBound(g, limit);
    } else {
      assert Passing(next, limit) == Passing(g, limit);
    }
  }

  /** Never more streams than the limit are admitted, though entering and checking are separate steps. */
  lemma GateHolds(g: Gate, a: GateAction, limit: nat)
    requires GateSound(g, limit) && GateEnabled(g, a)
    ensures GateSound(GateNext(g, a, limit), limit)
    ensures GateNext(g, a, limit).admitted <= limit
  {
    var next := GateNext(g, a, limit);
    match a
    case Enter(call) => EnterHolds(g, call, limit);
    case Decide(call) =>
      assert next.undecided.Keys == g.undecided.Keys - {call};
      if g.undecided[call] <= limit {
        assert Passing(next, limit) == Passing(g, limit) - {call};
      } else {
        assert Passing(next, limit) == Passing(g, limit);
      }
    case LeaveRejected =>
      assert Passing(next, limit) == Passing(g, limit);
    case LeaveAdmitted =>
      assert Passing(next, limit) == Passing(g, limit);
  }

  lemma PassingBound(g: Gate, limit: nat)
    ensures |Passing(g, limit)| <= |g.undecided.Keys|
  {
    assert g.undecided.Keys == Passing(g, limit) + (g.undecided.Keys - Passing(g, limit));
  }

  const CLOSED_GATE: Gate := Gate(0, map[], 0, 0)

  ghost predicate IsGateRun(gates: seq<Gate>, actions: seq<GateAction>, limit: nat) {
    && |gates| == |actions| + 1 && gates[0] == CLOSED_GATE
    && forall i {:trigger actions[i]} :: 0 <= i < |actions| ==>
         GateEnabled(gates[i], actions[i]) && gates[i + 1] == GateNext(gates[i], actions[i], limit)
  }

  /** In every run, at every moment, no more streams than the limit are admitted. */
  lemma {:induction false} LimitHolds(gates: seq<Gate>, actions: seq<GateAction>, limit: nat, i: nat)
    requires IsGateRun(gates, actions, limit) && i < |gates|
    ensures GateSound(gates[i], limit) && gates[i].admitted <= limit
  {
    if i == 0 {
      assert Passing(CLOSED_GATE, limit) == {};
    } else {
      LimitHolds(gates, actions, limit, i - 1);
      assert actions[i - 1] == actions[i - 1];
      GateHolds(gates[i - 1], actions[i - 1], limit);
    }
  }
}
