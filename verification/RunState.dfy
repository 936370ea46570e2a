/**
  The record of the running server: internal/runstate/runstate.go as steps over one locked file. Any number of
  instances and readers interleave; an instance may crash between any two of its steps.
 */
module RunState {

  datatype Record = Record(writer: nat, address: string)

  /** A record that is only partly written does not parse. */
  datatype Content = Empty | Torn | Full(record: Record)

  datatype FileLock = Unlocked | Exclusive(holder: nat) | Shared(readers: set<nat>)

  /** Where an instance stands: Locked lies between its flock and its truncate, Emptied and Tearing inside Write. */
  datatype Phase = Trying(attempts: nat) | Refused | Locked | Ready | Emptied | Tearing | Leaving | Gone

  datatype Answer = NotRunning | Running(record: Record) | AddressUnknown

  /**
    A reader holds the shared lock for a moment, or was turned away by a holder and goes on to read. seen are the
    instances that held the lock since its probe; inWindow says that the holder at the probe had not truncated
    yet and nobody has since.
   */
  datatype Reader =
    | Sharing
    | Probed(seen: set<nat>, inWindow: bool)
    | Answered(answer: Answer, seen: set<nat>, inWindow: bool)

  datatype State = State(lock: FileLock, content: Content, instances: map<nat, Phase>, readers: map<nat, Reader>)

  const INITIAL: State := State(Unlocked, Empty, map[], map[])

  const ACQUIRE_ATTEMPTS: nat := 5

  datatype Action =
    | Start(p: nat)
    | TakeLock(p: nat)
    | AttemptFails(p: nat)
    | AcquireTruncate(p: nat)
    | AcquireTruncateFails(p: nat)
    | WriteTruncate(p: nat)
    | WriteSome(p: nat)
    | WriteRest(p: nat, address: string)
    | WriteFails(p: nat)
    | ReleaseTruncate(p: nat)
    | ReleaseTruncateFails(p: nat)
    | Unlock(p: nat)
    | Crash(p: nat)
    | Probe(r: nat)
    | StopSharing(r: nat)
    | ReadContent(r: nat)

  predicate IsAt(s: State, p: nat, phase: Phase) {
    p in s.instances && s.instances[p] == phase
  }

  predicate Holds(phase: Phase) {
    phase.Locked? || phase.Ready? || phase.Emptied? || phase.Tearing? || phase.Leaving?
  }

  predicate Enabled(s: State, a: Action) {
    match a
    case Start(p) => p !in s.instances
    case TakeLock(p) => p in s.instances && s.instances[p].Trying? && s.lock.Unlocked?
    case AttemptFails(p) => p in s.instances && s.instances[p].Trying? && !s.lock.Unlocked?
    case AcquireTruncate(p) => IsAt(s, p, Locked)
    case AcquireTruncateFails(p) => IsAt(s, p, Locked)
    case WriteTruncate(p) => IsAt(s, p, Ready)
    case WriteSome(p) => IsAt(s, p, Emptied)
    case WriteRest(p, _) => IsAt(s, p, Tearing)
    case WriteFails(p) => IsAt(s, p, Emptied) || IsAt(s, p, Tearing)
    case ReleaseTruncate(p) => IsAt(s, p, Ready)
    case ReleaseTruncateFails(p) => IsAt(s, p, Ready)
    case Unlock(p) => IsAt(s, p, Leaving)
    case Crash(p) => p in s.instances && !s.instances[p].Gone?
    case Probe(r) => r !in s.readers
    case StopSharing(r) => r in s.readers && s.readers[r].Sharing?
    case ReadContent(r) => r in s.readers && s.readers[r].Probed?
  }

  /** Everyone who is about to read has been overtaken by this instance's lock. */
  function Witnessed(readers: map<nat, Reader>, p: nat): map<nat, Reader> {
    map r | r in readers ::
      if readers[r].Probed? then Probed(readers[r].seen + {p}, readers[r].inWindow) else readers[r]
  }

  function Cleared(readers: map<nat, Reader>): map<nat, Reader> {
    map r | r in readers :: if readers[r].Probed? then Probed(readers[r].seen, false) else readers[r]
  }

  function At(s: State, p: nat, phase: Phase): map<nat, Phase> {
    s.instances[p := phase]
  }

  function WithoutLockOf(lock: FileLock, p: nat): FileLock {
    if lock == Exclusive(p) then Unlocked else lock
  }

  function AnswerFor(content: Content): Answer {
    match content
    case Full(record) => if record.address == "" then AddressUnknown else Running(record)
    case Empty => AddressUnknown
    case Torn => AddressUnknown
  }

  function Next(s: State, a: Action): State
    requires Enabled(s, a)
  {
    match a
    case Start(p) => s.(instances := At(s, p, Trying(1)))
    case TakeLock(p) =>
      s.(lock := Exclusive(p), instances := At(s, p, Locked), readers := Witnessed(s.readers, p))
    case AttemptFails(p) =>
      var n := s.instances[p].attempts;
      s.(instances := At(s, p, if n >= ACQUIRE_ATTEMPTS then Refused else Trying(n + 1)))
    case AcquireTruncate(p) =>
      s.(content := Empty, instances := At(s, p, Ready), readers := Cleared(s.readers))
    case AcquireTruncateFails(p) =>
      s.(lock := WithoutLockOf(s.lock, p), instances := At(s, p, Gone))
    case WriteTruncate(p) =>
      s.(content := Empty, instances := At(s, p, Emptied), readers := Cleared(s.readers))
    case WriteSome(p) => s.(content := Torn, instances := At(s, p, Tearing))
    case WriteRest(p, address) => s.(content := Full(Record(p, address)), instances := At(s, p, Ready))
    case WriteFails(p) => s.(instances := At(s, p, Ready))
    case ReleaseTruncate(p) =>
      s.(content := Empty, instances := At(s, p, Leaving), readers := Cleared(s.readers))
    case ReleaseTruncateFails(p) => s.(instances := At(s, p, Leaving))
    case Unlock(p) => s.(lock := WithoutLockOf(s.lock, p), instances := At(s, p, Gone))
    case Crash(p) => s.(lock := WithoutLockOf(s.lock, p), instances := At(s, p, Gone))
    case Probe(r) =>
      match s.lock {
        case Unlocked => s.(lock := Shared({r}), readers := s.readers[r := Sharing])
        case Shared(others) => s.(lock := Shared(others + {r}), readers := s.readers[r := Sharing])
        case Exclusive(p) => s.(readers := s.readers[r := Probed({p}, IsAt(s, p, Locked))])
      }
    case StopSharing(r) =>
      s.(lock := if s.lock.Shared? && s.lock.readers - {r} != {} then Shared(s.lock.readers - {r})
         else if s.lock.Shared? then Unlocked else s.lock,
         readers := s.readers[r := Answered(NotRunning, {}, false)])
    case ReadContent(r) =>
      s.(readers := s.readers[r := Answered(AnswerFor(s.content), s.readers[r].seen, s.readers[r].inWindow)])
  }

  // ----- what every interleaving keeps -----

  /** Exactly the holder of the exclusive lock is between its flock and its unlock. */
  predicate LockSound(s: State) {
    && (forall p :: p in s.instances && Holds(s.instances[p]) ==> s.lock == Exclusive(p))
    && (s.lock.Exclusive? ==> s.lock.holder in s.instances && Holds(s.instances[s.lock.holder]))
  }

  /** A holder that has truncated finds nothing of anybody else; a writer has truncated. */
  predicate ContentSound(s: State) {
    && (s.content.Full? ==>
          var w := s.content.record.writer;
          w in s.instances && !s.instances[w].Trying? && !s.instances[w].Refused? && !s.instances[w].Locked?)
    && ((s.lock.Exclusive? && s.content.Full? && s.lock.holder in s.instances
         && !s.instances[s.lock.holder].Locked?)
        ==> s.content.record.writer == s.lock.holder)
    && (forall p :: p in s.instances && s.instances[p].Emptied? ==> s.content.Empty?)
    && (forall p :: p in s.instances && s.instances[p].Tearing? ==> s.content.Torn?)
  }

  /** Of the instances a reader has seen holding the lock, and of whom the content is. */
  predicate ReaderSound(s: State, reader: Reader) {
    match reader
    case Sharing => true
    case Probed(seen, inWindow) =>
      && (s.lock.Exclusive? ==> s.lock.holder in seen)
      && (s.content.Full? ==> (s.content.record.writer in seen <==> !inWindow))
      && (inWindow && s.lock.Exclusive? ==> IsAt(s, s.lock.holder, Locked))
    case Answered(answer, seen, inWindow) =>
      answer.Running? ==> (answer.record.writer in seen <==> !inWindow)
  }

  predicate Invariant(s: State) {
    && LockSound(s) && ContentSound(s)
    && forall r :: r in s.readers ==> ReaderSound(s, s.readers[r])
  }

  lemma StepKeepsLock(s: State, a: Action)
    requires Invariant(s) && Enabled(s, a)
    ensures LockSound(Next(s, a))
  {
    hide ReaderSound;
  }

  lemma StepKeepsContent(s: State, a: Action)
    requires Invariant(s) && Enabled(s, a)
    ensures ContentSound(Next(s, a))
  {
    hide ReaderSound;
  }

  lemma StepKeepsReader(s: State, a: Action, r: nat)
    requires Invariant(s) && Enabled(s, a) && r in Next(s, a).readers
    ensures ReaderSound(Next(s, a), Next(s, a).readers[r])
  {
    if r in s.readers {
      assert ReaderSound(s, s.readers[r]);
    }
  }

  lemma StepKeepsInvariant(s: State, a: Action)
    requires Invariant(s) && Enabled(s, a)
    ensures Invariant(Next(s, a))
  {
    StepKeepsLock(s, a);
    StepKeepsContent(s, a);
    forall r | r in Next(s, a).readers
      ensures ReaderSound(Next(s, a), Next(s, a).readers[r])
    {
      StepKeepsReader(s, a, r);
    }
  }

  predicate IsExecution(states: seq<State>, actions: seq<Action>) {
    && |states| == |actions| + 1 && states[0] == INITIAL
    && forall i {:trigger actions[i]} :: 0 <= i < |actions| ==>
         Enabled(states[i], actions[i]) && states[i + 1] == Next(states[i], actions[i])
  }

  lemma {:induction false} EveryStateSound(states: seq<State>, actions: seq<Action>, i: nat)
    requires IsExecution(states, actions) && i < |states|
    ensures Invariant(states[i])
  {
    hide Invariant, Next;
    if i == 0 {
      InitialSound();
    } else {
      EveryStateSound(states, actions, i - 1);
      assert actions[i - 1] == actions[i - 1];
      StepKeepsInvariant(states[i - 1], actions[i - 1]);
    }
  }

  lemma InitialSound()
    ensures Invariant(INITIAL)
  {
  }

  /** Two instances never hold the record at once. */
  lemma OneServerAtMost(states: seq<State>, actions: seq<Action>, i: nat, p: nat, q: nat)
    requires IsExecution(states, actions) && i < |states|
    requires p in states[i].instances && q in states[i].instances
    requires Holds(states[i].instances[p]) && Holds(states[i].instances[q])
    ensures p == q
  {
    EveryStateSound(states, actions, i);
  }

  predicate HeldAt(s: State, p: nat) {
    p in s.instances && Holds(s.instances[p])
  }

  predicate IsTruncation(a: Action) {
    a.AcquireTruncate? || a.WriteTruncate? || a.ReleaseTruncate?
  }

  /** An acquirer was between its lock and its truncation at the first moment, and nobody truncated up to the second. */
  ghost predicate InWindow(states: seq<State>, actions: seq<Action>, first: nat, last: nat)
    requires first <= last <= |actions| && |states| == |actions| + 1
  {
    && (exists p :: IsAt(states[first], p, Locked))
    && forall m :: first <= m < last ==> !IsTruncation(actions[m])
  }

  /** What a reader has seen goes back to its probe: who held the lock since, and whether the window lasted. */
  ghost predicate SeenSince(
    states: seq<State>, actions: seq<Action>, first: nat, last: nat, seen: set<nat>, inWindow: bool)
    requires first <= last <= |actions| && |states| == |actions| + 1
  {
    && (forall p :: p in seen <==> exists m: nat :: first <= m <= last && HeldAt(states[m], p))
    && (inWindow <==> InWindow(states, actions, first, last))
  }

  lemma SeenAtProbe(states: seq<State>, actions: seq<Action>, i: nat)
    requires IsExecution(states, actions) && i < |actions| && actions[i].Probe?
    requires states[i + 1].readers[actions[i].r].Probed?
    ensures var reader := states[i + 1].readers[actions[i].r];
            SeenSince(states, actions, i, i + 1, reader.seen, reader.inWindow)
  {
    EveryStateSound(states, actions, i);
    assert Next(states[i], actions[i]) == states[i + 1];
    var p := states[i].lock.holder;
    assert HeldAt(states[i], p);
    assert forall q :: IsAt(states[i], q, Locked) ==> HeldAt(states[i], q);
    assert forall q, m: nat :: i <= m <= i + 1 && HeldAt(states[m], q) ==> m == i || m == i + 1;
  }

  lemma SeenNext(states: seq<State>, actions: seq<Action>, first: nat, i: nat, r: nat)
    requires IsExecution(states, actions) && first <= i < |actions|
    requires r in states[i].readers && states[i].readers[r].Probed?
    requires r in states[i + 1].readers && states[i + 1].readers[r].Probed?
    requires SeenSince(states, actions, first, i, states[i].readers[r].seen, states[i].readers[r].inWindow)
    ensures SeenSince(
              states, actions, first, i + 1, states[i + 1].readers[r].seen, states[i + 1].readers[r].inWindow)
  {
    var a, before, after := actions[i], states[i].readers[r], states[i + 1].readers[r];
    EveryStateSound(states, actions, i + 1);
    assert Next(states[i], a) == states[i + 1] && ReaderSound(states[i + 1], after);
    StepOfReader(states[i], a, r);
    forall p
      ensures p in after.seen <==> exists m: nat :: first <= m <= i + 1 && HeldAt(states[m], p)
    {
      if p in after.seen {
        if p in before.seen {
          var m: nat :| first <= m <= i && HeldAt(states[m], p);
          assert first <= m <= i + 1 && HeldAt(states[m], p);
        } else {
          assert HeldAt(states[i + 1], p);
        }
      }
    }
  }

  /** A step leaves what a reader has seen, but for a lock that is taken and for a truncation. */
  lemma StepOfReader(s: State, a: Action, r: nat)
    requires Enabled(s, a) && r in s.readers && s.readers[r].Probed?
    requires r in Next(s, a).readers && Next(s, a).readers[r].Probed?
    ensures var before, after := s.readers[r], Next(s, a).readers[r];
            && after.seen == before.seen + (if a.TakeLock? then {a.p} else {})
            && after.inWindow == (before.inWindow && !IsTruncation(a))
    ensures a.TakeLock? ==> HeldAt(Next(s, a), a.p)
  {
  }

  /** The probe a reader goes back to. */
  lemma {:induction false} ProbeOf(states: seq<State>, actions: seq<Action>, i: nat, r: nat) returns (first: nat)
    requires IsExecution(states, actions) && i < |states|
    requires r in states[i].readers && states[i].readers[r].Probed?
    ensures first < i && actions[first] == Probe(r)
    ensures SeenSince(states, actions, first, i, states[i].readers[r].seen, states[i].readers[r].inWindow)
    decreases i
  {
    assert i > 0;
    var a := actions[i - 1];
    assert Enabled(states[i - 1], a) && states[i] == Next(states[i - 1], a);
    if a == Probe(r) {
      first := i - 1;
      SeenAtProbe(states, actions, first);
    } else {
      first := ProbeOf(states, actions, i - 1, r);
      SeenNext(states, actions, first, i - 1, r);
    }
  }

  /**
    A read that answers "running" names an instance that held the lock at some moment of the read, exactly when it
    is not the case that an acquirer was between its lock and its truncation at the probe and nobody truncated
    before the content was read.
   */
  lemma RunningIsTruthful(states: seq<State>, actions: seq<Action>, i: nat, r: nat) returns (first: nat)
    requires IsExecution(states, actions) && i < |actions| && actions[i] == ReadContent(r)
    requires states[i + 1].readers[r].answer.Running?
    ensures first < i && actions[first] == Probe(r)
    ensures (exists m: nat :: first <= m <= i && HeldAt(states[m], states[i + 1].readers[r].answer.record.writer))
            <==> !InWindow(states, actions, first, i)
  {
    assert Enabled(states[i], actions[i]) && states[i + 1] == Next(states[i], actions[i]);
    EveryStateSound(states, actions, i);
    assert ReaderSound(states[i], states[i].readers[r]);
    first := ProbeOf(states, actions, i, r);
  }

  /** "Not running" is only answered by a reader that got the shared lock: nobody held the exclusive one then. */
  lemma NotRunningIsTruthful(states: seq<State>, actions: seq<Action>, i: nat)
    requires IsExecution(states, actions) && i < |actions| && actions[i].Probe?
    requires states[i + 1].readers[actions[i].r].Sharing?
    ensures forall p :: p in states[i].instances ==> !Holds(states[i].instances[p])
  {
    EveryStateSound(states, actions, i);
    assert Next(states[i], actions[i]) == states[i + 1];
  }

  /** Between the truncate and the end of a write, a read answers that the address is unknown. */
  lemma ReadInsideWrite(states: seq<State>, actions: seq<Action>, i: nat, p: nat)
    requires IsExecution(states, actions) && i < |actions| && actions[i].ReadContent?
    requires IsAt(states[i], p, Emptied) || IsAt(states[i], p, Tearing)
    ensures states[i + 1].readers[actions[i].r].answer == AddressUnknown
  {
    EveryStateSound(states, actions, i);
    assert Next(states[i], actions[i]) == states[i + 1];
  }

  /** The steps before position i in which the instance tried the lock in vain. */
  function FailedAttempts(actions: seq<Action>, i: nat, p: nat): set<nat>
    requires i <= |actions|
  {
    set m: nat | m < i && actions[m] == AttemptFails(p)
  }

  lemma FailedNext(actions: seq<Action>, i: nat, p: nat)
    requires i < |actions|
    ensures FailedAttempts(actions, i + 1, p)
         == FailedAttempts(actions, i, p) + (if actions[i] == AttemptFails(p) then {i} else {})
    ensures i !in FailedAttempts(actions, i, p)
  {
  }

  /** What a step does to the attempts of an acquirer. */
  lemma AttemptOfStep(s: State, a: Action, p: nat)
    requires Enabled(s, a)
    ensures p !in Next(s, a).instances ==> p !in s.instances && a != AttemptFails(p)
    ensures p in Next(s, a).instances && Next(s, a).instances[p].Trying? ==>
              var n := Next(s, a).instances[p].attempts;
              if p !in s.instances then n == 1 && a != AttemptFails(p)
              else
                s.instances[p].Trying?
                && (if a == AttemptFails(p) then n == s.instances[p].attempts + 1 <= ACQUIRE_ATTEMPTS
                    else n == s.instances[p].attempts)
    ensures IsAt(Next(s, a), p, Refused) ==>
              || (IsAt(s, p, Refused) && a != AttemptFails(p))
              || (a == AttemptFails(p) && s.instances[p].attempts >= ACQUIRE_ATTEMPTS)
  {
  }

  lemma {:induction false} AttemptsAreCounted(states: seq<State>, actions: seq<Action>, i: nat, p: nat)
    requires IsExecution(states, actions) && i < |states|
    ensures p !in states[i].instances ==> FailedAttempts(actions, i, p) == {}
    ensures p in states[i].instances && states[i].instances[p].Trying? ==>
              |FailedAttempts(actions, i, p)| == states[i].instances[p].attempts - 1
              && states[i].instances[p].attempts <= ACQUIRE_ATTEMPTS
    ensures IsAt(states[i], p, Refused) ==> |FailedAttempts(actions, i, p)| == ACQUIRE_ATTEMPTS
  {
    if i > 0 {
      AttemptsAreCounted(states, actions, i - 1, p);
      assert Enabled(states[i - 1], actions[i - 1]) && states[i] == Next(states[i - 1], actions[i - 1]);
      AttemptOfStep(states[i - 1], actions[i - 1], p);
      FailedNext(actions, i - 1, p);
      hide FailedAttempts, Next;
    }
  }

  /** An acquirer gives up only after five attempts, and found the lock taken at each of them. */
  lemma RefusedAfterAllAttempts(states: seq<State>, actions: seq<Action>, i: nat, p: nat)
    requires IsExecution(states, actions) && i < |states| && IsAt(states[i], p, Refused)
    ensures |FailedAttempts(actions, i, p)| == ACQUIRE_ATTEMPTS
    ensures forall m :: m in FailedAttempts(actions, i, p) ==> !states[m].lock.Unlocked?
  {
    AttemptsAreCounted(states, actions, i, p);
    forall m | m in FailedAttempts(actions, i, p)
      ensures !states[m].lock.Unlocked?
    {
      assert Enabled(states[m], actions[m]);
    }
  }

  lemma Extend(states: seq<State>, actions: seq<Action>, a: Action, next: State)
    returns (states': seq<State>, actions': seq<Action>)
    requires IsExecution(states, actions)
    requires Enabled(states[|states| - 1], a) && next == Next(states[|states| - 1], a)
    ensures IsExecution(states', actions') && states' == states + [next]
  {
    states', actions' := states + [next], actions + [a];
    forall i | 0 <= i < |actions'|
      ensures Enabled(states'[i], actions'[i]) && states'[i + 1] == Next(states'[i], actions'[i])
    {
      if i < |actions| {
        assert actions'[i] == actions[i];
      }
    }
  }

  /** A first instance has written its record and crashed. */
  lemma CrashLeavesRecord() returns (states: seq<State>, actions: seq<Action>)
    ensures IsExecution(states, actions)
    ensures states[|states| - 1] == State(Unlocked, Full(Record(0, "a")), map[0 := Gone], map[])
  {
    states, actions := FirstIsWriting();
    states, actions := Extend(states, actions, WriteSome(0), State(Exclusive(0), Torn, map[0 := Tearing], map[]));
    states, actions := Extend(states, actions, WriteRest(0, "a"),
      State(Exclusive(0), Full(Record(0, "a")), map[0 := Ready], map[]));
    states, actions := Extend(states, actions, Crash(0),
      State(Unlocked, Full(Record(0, "a")), map[0 := Gone], map[]));
  }

  lemma FirstIsWriting() returns (states: seq<State>, actions: seq<Action>)
    ensures IsExecution(states, actions)
    ensures states[|states| - 1] == State(Exclusive(0), Empty, map[0 := Emptied], map[])
  {
    states, actions := [INITIAL], [];
    states, actions := Extend(states, actions, Start(0), State(Unlocked, Empty, map[0 := Trying(1)], map[]));
    states, actions := Extend(states, actions, TakeLock(0), State(Exclusive(0), Empty, map[0 := Locked], map[]));
    states, actions := Extend(states, actions, AcquireTruncate(0),
      State(Exclusive(0), Empty, map[0 := Ready], map[]));
    states, actions := Extend(states, actions, WriteTruncate(0),
      State(Exclusive(0), Empty, map[0 := Emptied], map[]));
  }

  /** A crashed server can still be reported: the read probes inside the next acquirer's window. */
  lemma StaleAnswerHappens() returns (states: seq<State>, actions: seq<Action>)
    ensures IsExecution(states, actions)
    ensures var last := states[|states| - 1];
            IsAt(last, 0, Gone) && 7 in last.readers
            && last.readers[7] == Answered(Running(Record(0, "a")), {1}, true)
  {
    states, actions := CrashLeavesRecord();
    var record := Record(0, "a");
    states, actions := Extend(states, actions, Start(1),
      State(Unlocked, Full(record), map[0 := Gone, 1 := Trying(1)], map[]));
    states, actions := Extend(states, actions, TakeLock(1),
      State(Exclusive(1), Full(record), map[0 := Gone, 1 := Locked], map[]));
    states, actions := Extend(states, actions, Probe(7),
      State(Exclusive(1), Full(record), map[0 := Gone, 1 := Locked], map[7 := Probed({1}, true)]));
    states, actions := Extend(states, actions, ReadContent(7),
      State(Exclusive(1), Full(record), map[0 := Gone, 1 := Locked],
            map[7 := Answered(Running(record), {1}, true)]));
  }
}
