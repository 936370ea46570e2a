/**
  Moving the database to its new name: renameDatabase of internal/datadir/datadir.go, as one call and as the
  steps of any number of concurrent callers that may stop anywhere.
 */
module DataDir {

  /** The files of a database: prx.db or nnx.db with its sidecars. */
  datatype File = Wal | Shm | Main

  /** Sidecars first, the database itself last. */
  const ORDER: seq<File> := [Wal, Shm, Main]

  /** No file stands under both names. */
  predicate Apart(legacy: map<File, int>, renamed: map<File, int>) {
    forall f :: f in legacy ==> f !in renamed
  }

  // ----- one call -----

  datatype CallResult = Finished | CannotInspect | CannotRename(file: File)

  class Directory {
    /** Contents under the old and under the new name. */
    var legacy: map<File, int>
    var renamed: map<File, int>

    constructor (legacy: map<File, int>)
      ensures this.legacy == legacy && this.renamed == map[]
    {
      this.legacy, this.renamed := legacy, map[];
    }

    /** os.Rename: refused for some reason, nothing to rename, or done in one step. */
    method Rename(file: File, refused: bool) returns (failed: bool)
      modifies this
      ensures failed <==> refused
      ensures refused || file !in old(legacy) ==> legacy == old(legacy) && renamed == old(renamed)
      ensures !refused && file in old(legacy) ==>
                legacy == old(legacy) - {file} && renamed == old(renamed)[file := old(legacy)[file]]
    {
      failed := refused;
      if !refused && file in legacy {
        renamed := renamed[file := legacy[file]];
        legacy := legacy - {file};
      }
    }

    /** renameDatabase: a call that is not interrupted moves the whole database, or stops with it still named prx. */
    method RenameDatabase(inspectFails: (bool, bool), refused: File -> bool) returns (r: CallResult)
      modifies this
      ensures Apart(old(legacy), old(renamed)) ==> Apart(legacy, renamed)
      ensures Apart(old(legacy), old(renamed)) ==> legacy + renamed == old(legacy) + old(renamed)
      ensures r.Finished? && Main !in old(renamed) && Main in old(legacy) ==> legacy == map[]
      ensures r.Finished? && (Main in old(renamed) || Main !in old(legacy)) ==>
                legacy == old(legacy) && renamed == old(renamed)
      ensures r.CannotInspect? <==> inspectFails.0 || (Main !in old(renamed) && inspectFails.1)
      ensures r.CannotInspect? ==> legacy == old(legacy) && renamed == old(renamed)
      ensures r.CannotRename? <==>
                !inspectFails.0 && Main !in old(renamed) && !inspectFails.1 && Main in old(legacy)
                && exists f :: refused(f)
      ensures r.CannotRename? ==> Main in legacy && refused(r.file)
    {
      if inspectFails.0 {
        return CannotInspect;
      }
      if Main in renamed {
        return Finished;
      }
      if inspectFails.1 {
        return CannotInspect;
      }
      if Main !in legacy {
        return Finished;
      }
      ghost var legacy0, renamed0 := legacy, renamed;
      for i := 0 to |ORDER|
        invariant legacy0 == old(legacy) && renamed0 == old(renamed)
        invariant Apart(legacy0, renamed0) ==> Apart(legacy, renamed)
        invariant Apart(legacy0, renamed0) ==> legacy + renamed == legacy0 + renamed0
        invariant forall f :: f in ORDER[..i] ==> f !in legacy
        invariant forall f :: f in ORDER[..i] ==> !refused(f)
        invariant i < |ORDER| ==> Main in legacy
      {
        var file := ORDER[i];
        ghost var l, n := legacy, renamed;
        var failed := Rename(file, refused(file));
        if failed {
          return CannotRename(file);
        }
        if file in l && Apart(l, n) {
          MovedKeeps(l, n, file);
        }
        assert ORDER[..i + 1] == ORDER[..i] + [file];
      }
      assert ORDER[..|ORDER|] == ORDER;
      assert Wal in ORDER && Shm in ORDER && Main in ORDER;
      NothingLeft(legacy);
      forall f
        ensures !refused(f)
      {
        match f
        case Wal =>
        case Shm =>
        case Main =>
      }
      r := Finished;
    }
  }

  lemma NothingLeft(legacy: map<File, int>)
    requires Wal !in legacy && Shm !in legacy && Main !in legacy
    ensures legacy == map[]
  {
    forall f
      ensures f !in legacy
    {
      match f
      case Wal =>
      case Shm =>
      case Main =>
    }
  }

  lemma MovedKeeps(legacy: map<File, int>, renamed: map<File, int>, file: File)
    requires file in legacy && Apart(legacy, renamed)
    ensures (legacy - {file}) + renamed[file := legacy[file]] == legacy + renamed
  {
  }

  // ----- concurrent callers -----

  /** Where a caller stands; Moving(k) is about to rename the k-th file. */
  datatype Phase = AtTarget | AtLegacy | Moving(k: nat) | Returned | Stopped

  /** inUse says that somebody uses the database under its new name by now. */
  datatype State = State(legacy: map<File, int>, renamed: map<File, int>, callers: map<nat, Phase>, inUse: bool)

  datatype Action =
    | Begin(c: nat)
    | LookTarget(c: nat)
    | LookLegacy(c: nat)
    | Move(c: nat)
    | Stop(c: nat)
    | Use(c: nat, file: File, content: int)
    | Discard(c: nat, file: File)

  predicate IsAt(s: State, c: nat, phase: Phase) {
    c in s.callers && s.callers[c] == phase
  }

  /** Errors and crashes stop a caller anywhere; after returning it opens the database under its new name. */
  predicate Enabled(s: State, a: Action) {
    match a
    case Begin(c) => c !in s.callers
    case LookTarget(c) => IsAt(s, c, AtTarget)
    case LookLegacy(c) => IsAt(s, c, AtLegacy)
    case Move(c) => c in s.callers && s.callers[c].Moving? && s.callers[c].k < |ORDER|
    case Stop(c) => c in s.callers
    case Use(c, file, _) => IsAt(s, c, Returned) && (file == Main || Main in s.renamed)
    case Discard(c, file) => IsAt(s, c, Returned) && file != Main && file in s.renamed && s.inUse
  }

  function Next(s: State, a: Action): State
    requires Enabled(s, a)
  {
    match a
    case Begin(c) => s.(callers := s.callers[c := AtTarget])
    case LookTarget(c) => s.(callers := s.callers[c := if Main in s.renamed then Returned else AtLegacy])
    case LookLegacy(c) => s.(callers := s.callers[c := if Main in s.legacy then Moving(0) else Returned])
    case Move(c) =>
      var k := s.callers[c].k;
      var after := if k + 1 < |ORDER| then Moving(k + 1) else Returned;
      if ORDER[k] in s.legacy then
        s.(legacy := s.legacy - {ORDER[k]}, renamed := s.renamed[ORDER[k] := s.legacy[ORDER[k]]],
          callers := s.callers[c := after])
      else s.(callers := s.callers[c := after])
    case Stop(c) => s.(callers := s.callers[c := Stopped])
    case Use(_, file, content) => s.(renamed := s.renamed[file := content], inUse := true)
    case Discard(_, file) => s.(renamed := s.renamed - {file})
  }

  /** Sidecars stand only beside their database. */
  predicate NoOrphans(legacy: map<File, int>) {
    Main !in legacy ==> Wal !in legacy && Shm !in legacy
  }

  /** Nothing stands under the new name yet. */
  function Start(legacy: map<File, int>): State {
    State(legacy, map[], map[], false)
  }

  predicate CallerSound(s: State, phase: Phase) {
    match phase
    case Moving(k) => k < |ORDER| && forall i :: 0 <= i < k ==> ORDER[i] !in s.legacy
    case Returned => Main !in s.legacy
    case _ => true
  }

  predicate Invariant(s: State, start: map<File, int>) {
    && Apart(s.legacy, s.renamed)
    && NoOrphans(s.legacy)
    && (forall c :: c in s.callers ==> CallerSound(s, s.callers[c]))
    && (s.inUse ==> s.legacy == map[])
    && (!s.inUse ==> s.legacy + s.renamed == start)
  }

  lemma StepKeepsInvariant(s: State, a: Action, start: map<File, int>)
    requires Invariant(s, start) && Enabled(s, a)
    ensures Invariant(Next(s, a), start)
  {
    match a
    case Move(c) =>
      assert CallerSound(s, s.callers[c]);
      var file := ORDER[s.callers[c].k];
      if file in s.legacy {
        MovedKeeps(s.legacy, s.renamed, file);
        if file == Main {
          assert ORDER[0] == Wal && ORDER[1] == Shm && s.callers[c].k == 2;
        }
      }
    case Use(c, _, _) =>
      assert CallerSound(s, s.callers[c]);
      NothingLeft(s.legacy);
    case _ =>
  }

  predicate IsExecution(states: seq<State>, actions: seq<Action>) {
    && |states| == |actions| + 1 && states[0] == Start(states[0].legacy)
    && forall i {:trigger actions[i]} :: 0 <= i < |actions| ==>
         Enabled(states[i], actions[i]) && states[i + 1] == Next(states[i], actions[i])
  }

  lemma {:induction false} EveryStateSound(states: seq<State>, actions: seq<Action>, i: nat)
    requires IsExecution(states, actions) && NoOrphans(states[0].legacy) && i < |states|
    ensures Invariant(states[i], states[0].legacy)
  {
    if i == 0 {
      assert states[0].legacy + map[] == states[0].legacy;
    } else {
      EveryStateSound(states, actions, i - 1);
      assert actions[i - 1] == actions[i - 1];
      StepKeepsInvariant(states[i - 1], actions[i - 1], states[0].legacy);
    }
  }

  /** At every point of every interleaving: a database under the new name has no sidecar under the old one. */
  lemma NewNameMeansNoOldSidecar(states: seq<State>, actions: seq<Action>, i: nat)
    requires IsExecution(states, actions) && NoOrphans(states[0].legacy) && i < |states| && Main in states[i].renamed
    ensures Wal !in states[i].legacy && Shm !in states[i].legacy && Main !in states[i].legacy
  {
    EveryStateSound(states, actions, i);
  }

  /** A directory that starts without its database is left as it is: nobody moves anything. */
  predicate LeftAlone(s: State, start: map<File, int>) {
    && s.legacy == start && (!s.inUse ==> s.renamed == map[])
    && (forall c :: c in s.callers ==> !s.callers[c].Moving?)
  }

  lemma {:induction false} OrphansAreLeftAlone(states: seq<State>, actions: seq<Action>, i: nat)
    requires IsExecution(states, actions) && Main !in states[0].legacy && i < |states|
    ensures LeftAlone(states[i], states[0].legacy)
  {
    if i > 0 {
      OrphansAreLeftAlone(states, actions, i - 1);
      assert actions[i - 1] == actions[i - 1];
    }
  }

  /**
    Until somebody opens the database, every file is there with its content, under one name; and whatever stands
    under the old name stays when its database is not there.
   */
  lemma NothingIsLost(states: seq<State>, actions: seq<Action>, i: nat)
    requires IsExecution(states, actions) && i < |states|
    ensures !states[i].inUse ==>
              states[i].legacy + states[i].renamed == states[0].legacy
              && forall f :: f in states[0].legacy ==> (f in states[i].legacy) != (f in states[i].renamed)
    ensures states[i].inUse ==> states[i].legacy == if Main in states[0].legacy then map[] else states[0].legacy
  {
    if Main in states[0].legacy {
      EveryStateSound(states, actions, i);
    } else {
      OrphansAreLeftAlone(states, actions, i);
      assert states[0].legacy + map[] == states[0].legacy;
    }
  }

  /** A rename never lands on a file that is there already, whoever else has been at work. */
  lemma RenameNeverOverwrites(states: seq<State>, actions: seq<Action>, i: nat)
    requires IsExecution(states, actions) && i < |actions| && actions[i].Move?
    ensures var c := actions[i].c;
            c in states[i].callers && states[i].callers[c].Moving? && states[i].callers[c].k < |ORDER|
            && (ORDER[states[i].callers[c].k] in states[i].legacy ==>
                  ORDER[states[i].callers[c].k] !in states[i].renamed)
  {
    assert Enabled(states[i], actions[i]);
    if Main in states[0].legacy {
      EveryStateSound(states, actions, i);
    } else {
      OrphansAreLeftAlone(states, actions, i);
    }
  }

  /** The steps a caller takes by itself. */
  predicate IsCallersStep(a: Action, c: nat) {
    a == Begin(c) || a == LookTarget(c) || a == LookLegacy(c) || a == Move(c)
  }

  /** Alone and uninterrupted, a caller has moved the whole database after six steps. */
  lemma LoneCallerMovesAll(states: seq<State>, actions: seq<Action>, c: nat)
    requires IsExecution(states, actions) && Main in states[0].legacy && |actions| == 6
    requires forall i :: 0 <= i < |actions| ==> IsCallersStep(actions[i], c)
    ensures states[6].legacy == map[] && states[6].renamed == states[0].legacy
    ensures IsAt(states[6], c, Returned)
  {
    assert actions[0] == Begin(c);
    assert actions[1] == LookTarget(c);
    assert actions[2] == LookLegacy(c);
    assert actions[3] == Move(c) && states[3].callers[c] == Moving(0);
    assert actions[4] == Move(c) && states[4].callers[c] == Moving(1);
    assert actions[5] == Move(c) && states[5].callers[c] == Moving(2);
    EveryStateSound(states, actions, 6);
    assert CallerSound(states[6], states[6].callers[c]);
    NothingLeft(states[6].legacy);
    assert map[] + states[6].renamed == states[6].renamed;
  }

  /** Such a run exists from every directory with a database. */
  lemma LoneCallerCanFinish(legacy: map<File, int>, c: nat) returns (states: seq<State>, actions: seq<Action>)
    requires Main in legacy
    ensures IsExecution(states, actions) && states[0].legacy == legacy && |actions| == 6
    ensures forall i :: 0 <= i < |actions| ==> IsCallersStep(actions[i], c)
  {
    var s0 := Start(legacy);
    var s1 := Next(s0, Begin(c));
    var s2 := Next(s1, LookTarget(c));
    var s3 := Next(s2, LookLegacy(c));
    var s4 := Next(s3, Move(c));
    var s5 := Next(s4, Move(c));
    var s6 := Next(s5, Move(c));
    states := [s0, s1, s2, s3, s4, s5, s6];
    actions := [Begin(c), LookTarget(c), LookLegacy(c), Move(c), Move(c), Move(c)];
  }

  /** Once any caller has returned, the whole database is under its new name. */
  lemma ReturnedMeansMoved(states: seq<State>, actions: seq<Action>, i: nat, c: nat)
    requires IsExecution(states, actions) && NoOrphans(states[0].legacy) && i < |states| && IsAt(states[i], c, Returned)
    ensures states[i].legacy == map[]
  {
    EveryStateSound(states, actions, i);
    assert CallerSound(states[i], states[i].callers[c]);
    NothingLeft(states[i].legacy);
  }

  /** Without its database a sidecar is never moved: the first database under the new name stands beside it. */
  lemma OrphansStay(legacy: map<File, int>) returns (states: seq<State>, actions: seq<Action>)
    requires !NoOrphans(legacy)
    ensures IsExecution(states, actions) && states[0].legacy == legacy
    ensures var last := states[|states| - 1];
            Main in last.renamed && (Wal in last.legacy || Shm in last.legacy)
  {
    var s0 := Start(legacy);
    var s1 := Next(s0, Begin(0));
    var s2 := Next(s1, LookTarget(0));
    var s3 := Next(s2, LookLegacy(0));
    var s4 := Next(s3, Use(0, Main, 0));
    states, actions := [s0, s1, s2, s3, s4], [Begin(0), LookTarget(0), LookLegacy(0), Use(0, Main, 0)];
  }

  /** In the states of a run, a database under the new name has no sidecar under the old one. */
  predicate Separated(states: seq<State>) {
    forall i :: 0 <= i < |states| && Main in states[i].renamed ==>
      Wal !in states[i].legacy && Shm !in states[i].legacy
  }

  /** The promise about sidecars holds in every run exactly when none starts without its database. */
  lemma SidecarPromise(legacy: map<File, int>)
    ensures NoOrphans(legacy) <==>
              forall states: seq<State>, actions: seq<Action> ::
                (IsExecution(states, actions) && states[0].legacy == legacy) ==> Separated(states)
  {
    if NoOrphans(legacy) {
      forall states: seq<State>, actions: seq<Action> | IsExecution(states, actions) && states[0].legacy == legacy
        ensures Separated(states)
      {
        forall i | 0 <= i < |states| && Main in states[i].renamed
          ensures Wal !in states[i].legacy && Shm !in states[i].legacy
        {
          NewNameMeansNoOldSidecar(states, actions, i);
        }
      }
    } else {
      var states, actions := OrphansStay(legacy);
      assert !Separated(states);
    }
  }
}
