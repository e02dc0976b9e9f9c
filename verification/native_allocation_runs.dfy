/** What the native allocation promises over whole runs: what is removed, which unit is stopped, what a
    rollback refuses, and inputs that show where other actors are hit. */
module NativeAllocationRuns {

  import opened Wrappers
  import opened NativeAllocation

  /** A rollback in a new process after a stop of install, with no one else near: it ends Restored, with
      the drop-in gone, exactly when the state is not one of the refused ones. */
  method RollbackAfterStop(prestate: nat, stopped: World) returns (tx: Transaction, r: Outcome)
    requires InstallReaches(stopped, prestate)
    ensures fresh(tx) && Recorded(tx.steps, prestate, Alone)
    ensures tx.refusals == 0 ==> (r.Done? <==> !Refuses(stopped, prestate))
    ensures r.Done? ==> tx.world.receipt.phase.Restored? && tx.world.dropin.None? && tx.world.service.Running?
  {
    tx := new Transaction(prestate, Alone, stopped);
    r := tx.Rollback();
  }

  // ----- what is removed

  predicate LosesFile(s: Step, name: string) {
    && s.before.dropin.Some? && name in s.before.dropin.value.others
    && !(&& s.after.dropin.Some? && name in s.after.dropin.value.others
         && s.after.dropin.value.others[name] == s.before.dropin.value.others[name])
  }

  predicate LosesConfig(s: Step) {
    s.before.dropin.Some? && s.before.dropin.value.config.Some?
    && !(s.after.dropin.Some? && s.after.dropin.value.config == s.before.dropin.value.config)
  }

  predicate LosesDirectory(s: Step) {
    s.before.dropin.Some? && !(s.after.dropin.Some? && s.after.dropin.value.inode == s.before.dropin.value.inode)
  }

  /** Whatever others do: the configuration that is removed is the recorded inode, the directory the recorded
      one and empty, and any other file goes only by the sweep of a name that was staged before.  Nothing is
      staged or linked but in the recorded directory. */
  lemma RemovesOnlyOwned(steps: seq<Step>, prestate: nat, company: Company, i: nat, name: string)
    requires Recorded(steps, prestate, company) && i < |steps|
    ensures var s := steps[i];
            && (LosesConfig(s) ==> s.before.receipt.config == Some(s.before.dropin.value.config.value.inode))
            && (LosesDirectory(s) ==> && s.before.receipt.directory == Some(s.before.dropin.value.inode)
                                      && s.before.dropin.value.config.None? && s.before.dropin.value.others == map[])
            && (LosesFile(s, name) ==> s.op.Sweep? && s.op.file.name == name && StagedBefore(steps, i, s.op.file))
            && (s.op.Stage? || s.op.LinkConfig? ==>
                  s.before.dropin.Some? && s.before.receipt.directory == Some(s.before.dropin.value.inode))
  {
    assert RecordedAt(steps, i, prestate, company);
  }

  /** A file goes that is not the staged inode of the sweep. */
  ghost predicate TakesForeignFile(s: Step) {
    exists name :: LosesFile(s, name) && s.op != Sweep(Staged(name, s.before.dropin.value.others[name]))
  }

  /** That happens exactly when the staging name was bound to another inode between the staging and the sweep,
      so never with no one else near. */
  lemma ForeignFileIsTakenIff(steps: seq<Step>, prestate: nat, company: Company, i: nat)
    requires Recorded(steps, prestate, company) && i < |steps|
    ensures TakesForeignFile(steps[i]) <==>
            exists j, f ::
              0 <= j < i && steps[j].op == Stage(f) && steps[i].op == Sweep(f) && Rebound(steps[i].before, f)
    ensures company.Alone? ==> !TakesForeignFile(steps[i])
  {
    var s := steps[i];
    assert RecordedAt(steps, i, prestate, company);
    if name :| LosesFile(s, name) && s.op != Sweep(Staged(name, s.before.dropin.value.others[name])) {
      var f := s.op.file;
      var j :| 0 <= j < i && steps[j].op == Stage(f);
      assert Rebound(s.before, f);
    }
    if j, f :| 0 <= j < i && steps[j].op == Stage(f) && s.op == Sweep(f) && Rebound(s.before, f) {
      assert LosesFile(s, f.name);
    }
  }

  // ----- which unit is stopped

  /** A running incarnation is stopped that neither the receipt nor the plan names. */
  predicate StopsUntied(s: Step, prestate: nat) {
    s.op.StopUnit? && s.before.service.Running? && !Tied(s.before.receipt, prestate, s.before.service.incarnation)
  }

  /** The observation that a stop relies on. */
  ghost predicate LastObservation(steps: seq<Step>, i: nat, j: nat)
    requires i <= |steps|
  {
    j < i && steps[j].op.ObserveUnit? && forall m :: j < m < i ==> !steps[m].op.ObserveUnit?
  }

  /** Every stop follows an observation.  A running unit that is stopped is untied exactly when others changed it
      since then, and that takes a receipt that names no start. */
  lemma UntiedStopIff(steps: seq<Step>, prestate: nat, company: Company, i: nat)
    requires Recorded(steps, prestate, company) && i < |steps|
    requires steps[i].op.StopUnit? && steps[i].before.service.Running?
    ensures exists j: nat :: LastObservation(steps, i, j)
    ensures forall j: nat :: LastObservation(steps, i, j) ==>
              (StopsUntied(steps[i], prestate) <==> steps[i].before.service != steps[j].after.service)
    ensures StopsUntied(steps[i], prestate) ==>
              company.Everywhere? && steps[i].before.receipt.startIncarnation.None?
  {
    assert RecordedAt(steps, i, prestate, company);
    var j :| ObservedBefore(steps, i, j, prestate, steps[i].before.receipt);
    assert LastObservation(steps, i, j);
    assert RecordedAt(steps, j, prestate, company);
    forall k: nat | LastObservation(steps, i, k) ensures k == j {
    }
  }

  // ----- stops of install that rollback refuses

  function Fresh(prestate: nat): World { World(None, Running(prestate), FRESH_RECEIPT) }

  function With(w: World, d: Dropin): World { w.(dropin := Some(d)) }

  const EMPTY := Dropin(1, None, map[])
  const FILE := Staged("staging", 2)

  /** The worlds of an install that no one disturbs, one operation after the other. */
  function InstallWorlds(prestate: nat): seq<World> {
    var w0 := Fresh(prestate);
    var w1 := w0.(receipt := FRESH_RECEIPT.(phase := StopRequested));
    var w2 := w1.(service := Stopped);
    var w3 := w2.(receipt := FRESH_RECEIPT.(phase := ConfigRequested));
    var w4 := With(w3, EMPTY);
    var w5 := w4.(receipt := w4.receipt.(directory := Some(1)));
    var w6 := With(w5, WithFile(EMPTY, FILE));
    var w7 := w6.(receipt := w6.receipt.(config := Some(2)));
    var w8 := With(w7, WithFile(EMPTY, FILE).(config := Some(Config(2, true))));
    var w9 := With(w8, EMPTY.(config := Some(Config(2, true))));
    var w10 := w9.(receipt := w9.receipt.(phase := StartRequested));
    [w0, w0, w1, w2, w3, w4, w5, w6, w7, w8, w9, w10, w10.(service := Running(prestate + 1))]
  }

  const INSTALL_OPERATIONS := [
    ObserveUnit, Journal, StopUnit, Journal, MakeDirectory, Journal, Stage(FILE), Journal, LinkConfig("staging"),
    Sweep(FILE), Journal, StartUnit]

  /** Its first `n` steps. */
  function InstallRun(prestate: nat, n: nat): (run: seq<Step>)
    requires n <= 12
    ensures |run| == n
  {
    var worlds := InstallWorlds(prestate);
    seq(n, i requires 0 <= i < n => Step(INSTALL_OPERATIONS[i], worlds[i], worlds[i + 1]))
  }

  lemma InstallRunIsRecorded(prestate: nat, n: nat)
    requires n <= 12
    ensures Recorded(InstallRun(prestate, n), prestate, Alone)
  {
    var run := InstallRun(prestate, n);
    forall i | 0 <= i < n ensures RecordedAt(run, i, prestate, Alone) {
      InstallStepDoes(prestate, i);
      if i == 9 { assert run[6].op == Stage(FILE); }
      if i == 2 { assert ObservedBefore(run, 2, 0, prestate, run[2].before.receipt); }
    }
  }

  lemma InstallStepDoes(prestate: nat, i: nat)
    requires i < 12
    ensures var s := Step(INSTALL_OPERATIONS[i], InstallWorlds(prestate)[i], InstallWorlds(prestate)[i + 1]);
            Does(s) && StopIsTied(s, prestate, Alone) && (i == 9 <==> s.op == Sweep(FILE)) && (s.op.Sweep? ==> i == 9)
            && (i == 9 ==> !Rebound(s.before, FILE)) && (s.op.StopUnit? <==> i == 2)
  {
    assert EMPTY.others - {"staging"} == EMPTY.others;
    assert WithFile(EMPTY, FILE).others - {"staging"} == EMPTY.others;
  }

  /** The run goes on with one more step, into a stop of install that rollback refuses. */
  ghost predicate RefusedNext(run: seq<Step>, s: Step, prestate: nat) {
    && Recorded(run + [s], prestate, Alone) && run != [] && run[0].before == Fresh(prestate)
    && InstallReaches(s.after, prestate) && Refuses(s.after, prestate)
  }

  /** Killed after these steps, having raised after the record and swept, or with a stop or a start that did not
      settle: six stops of install, each after its own operations from the fresh receipt, each refused. */
  lemma EachRefusalIsReached(prestate: nat)
    ensures var w := InstallWorlds(prestate);
            && RefusedNext(InstallRun(prestate, 2), Step(StopUnit, w[2], w[2].(service := Unsettled)), prestate)
            && RefusedNext(InstallRun(prestate, 4), Step(MakeDirectory, w[4], w[5]), prestate)
            && RefusedNext(InstallRun(prestate, 7), Step(Journal, w[7], w[8]), prestate)
            && RefusedNext(InstallRun(prestate, 8), Step(Sweep(FILE), w[8], With(w[8], EMPTY)), prestate)
            && RefusedNext(InstallRun(prestate, 11), Step(StartUnit, w[11], w[12]), prestate)
            && RefusedNext(InstallRun(prestate, 11), Step(StartUnit, w[11], w[11].(service := Unsettled)), prestate)
  {
    hide RefusedNext, InstallRun, InstallWorlds;
    UnitRefusalsAreReached(prestate);
    DropinRefusalsAreReached(prestate);
  }

  lemma UnitRefusalsAreReached(prestate: nat)
    ensures var w := InstallWorlds(prestate);
            && RefusedNext(InstallRun(prestate, 2), Step(StopUnit, w[2], w[2].(service := Unsettled)), prestate)
            && RefusedNext(InstallRun(prestate, 11), Step(StartUnit, w[11], w[12]), prestate)
            && RefusedNext(InstallRun(prestate, 11), Step(StartUnit, w[11], w[11].(service := Unsettled)), prestate)
  {
    hide Recorded, Linked, InstallRun;
    var w := InstallWorlds(prestate);
    RunIsObserved(prestate);
    RunGoesOn(prestate, 2, Step(StopUnit, w[2], w[2].(service := Unsettled)));
    RunGoesOn(prestate, 11, Step(StartUnit, w[11], w[12]));
    RunGoesOn(prestate, 11, Step(StartUnit, w[11], w[11].(service := Unsettled)));
  }

  lemma DropinRefusalsAreReached(prestate: nat)
    ensures var w := InstallWorlds(prestate);
            && RefusedNext(InstallRun(prestate, 4), Step(MakeDirectory, w[4], w[5]), prestate)
            && RefusedNext(InstallRun(prestate, 7), Step(Journal, w[7], w[8]), prestate)
            && RefusedNext(InstallRun(prestate, 8), Step(Sweep(FILE), w[8], With(w[8], EMPTY)), prestate)
  {
    hide Recorded, Linked, InstallRun;
    var w := InstallWorlds(prestate);
    assert WithFile(EMPTY, FILE).others - {"staging"} == EMPTY.others;
    RunIsStaged(prestate);
    RunGoesOn(prestate, 4, Step(MakeDirectory, w[4], w[5]));
    RunGoesOn(prestate, 7, Step(Journal, w[7], w[8]));
    RunGoesOn(prestate, 8, Step(Sweep(FILE), w[8], With(w[8], EMPTY)));
  }

  lemma RunIsObserved(prestate: nat)
    ensures var r := InstallRun(prestate, 2);
            exists j :: ObservedBefore(r, |r|, j, prestate, InstallWorlds(prestate)[2].receipt)
  {
    assert ObservedBefore(InstallRun(prestate, 2), 2, 0, prestate, InstallWorlds(prestate)[2].receipt);
  }

  lemma RunIsStaged(prestate: nat)
    ensures StagedBefore(InstallRun(prestate, 8), 8, FILE)
  {
    assert InstallRun(prestate, 8)[6].op == Stage(FILE);
  }

  lemma RunGoesOn(prestate: nat, n: nat, s: Step)
    requires 0 < n <= 12 && s.before == InstallWorlds(prestate)[n] && Does(s) && StopIsTied(s, prestate, Alone)
    requires s.op.Sweep? ==> StagedBefore(InstallRun(prestate, n), n, s.op.file) && !Rebound(s.before, s.op.file)
    requires s.op.StopUnit? ==> exists j :: ObservedBefore(InstallRun(prestate, n), n, j, prestate, s.before.receipt)
    ensures Recorded(InstallRun(prestate, n) + [s], prestate, Alone)
    ensures InstallRun(prestate, n) != [] && InstallRun(prestate, n)[0].before == Fresh(prestate)
  {
    hide Does, StopIsTied, Rebound, ObservedBefore, StagedBefore, Recorded;
    InstallRunIsRecorded(prestate, n);
    StepExtendsTheRun(InstallRun(prestate, n), s, prestate, Alone);
  }

  // ----- stops of rollback itself

  /** Nothing is removed and the unit not restarted, and the unit is settled; if it still runs, it was accepted
      before or the request to restore is not yet recorded. */
  predicate StillUndoable(from: World, w: World) {
    && w.dropin == from.dropin && (w.service == from.service || w.service.Stopped?)
    && w.receipt.restorationIncarnation.None?
    && !(w.receipt.phase.RestoreRequested? && w.service.Running?
         && w.receipt.startIncarnation.Some? && w.receipt.runtimeAfter.None?)
  }

  /** A rollback from a stop of install is itself stopped: the next one completes exactly when it has recorded
      RESTORED, or is not yet past the point where its own checks refuse what it did. */
  lemma RerunCompletesIff(from: World, w: World, prestate: nat)
    requires InstallReaches(from, prestate) && !Refuses(from, prestate) && UndoReaches(from, w, prestate)
    ensures RollbackAccepts(w, prestate) <==> w.receipt.phase.Restored? || StillUndoable(from, w)
  {
  }

  /** So a rollback in a new process, after a lone rollback that was killed anywhere, ends Restored exactly then. */
  method RerunAfterStop(prestate: nat, from: World, stopped: World) returns (tx: Transaction, r: Outcome)
    requires InstallReaches(from, prestate) && !Refuses(from, prestate) && UndoReaches(from, stopped, prestate)
    ensures fresh(tx) && Recorded(tx.steps, prestate, Alone)
    ensures tx.refusals == 0 ==> (r.Done? <==> stopped.receipt.phase.Restored? || StillUndoable(from, stopped))
    ensures r.Done? ==> tx.world.receipt.phase.Restored? && tx.world.dropin.None? && tx.world.service.Running?
  {
    hide RollbackAccepts, UndoReaches, StillUndoable, InstallReaches, Refuses;
    RerunCompletesIff(from, stopped, prestate);
    tx := new Transaction(prestate, Alone, stopped);
    r := tx.Rollback();
  }

  /** The worlds of a rollback after the configuration was recorded and linked and the unit not yet started. */
  function UndoWorlds(prestate: nat): seq<World> {
    var w0 := InstallWorlds(prestate)[11];
    var w1 := RestoreRequest(w0);
    var w2 := With(w1, EMPTY);
    var w3 := w2.(dropin := None);
    var w4 := w3.(service := Running(prestate + 1));
    [w0, w1, w2, w3, w4, w4.(receipt := w4.receipt.(restorationIncarnation := Some(prestate + 1)))]
  }

  const UNDO_OPERATIONS := [Journal, RemoveConfig, RemoveDirectory, StartUnit, Journal]

  function UndoRun(prestate: nat): (run: seq<Step>)
    ensures |run| == 5
  {
    var worlds := UndoWorlds(prestate);
    seq(5, i requires 0 <= i < 5 => Step(UNDO_OPERATIONS[i], worlds[i], worlds[i + 1]))
  }

  /** From its first removal to the RESTORED record, every stop of that rollback is refused by the next one, and
      none before. */
  lemma RefusedFromTheRemovalOn(prestate: nat)
    ensures Recorded(UndoRun(prestate), prestate, Alone)
    ensures InstallReaches(UndoWorlds(prestate)[0], prestate) && !Refuses(UndoWorlds(prestate)[0], prestate)
    ensures forall i :: 0 <= i < 5 ==> UndoReaches(UndoWorlds(prestate)[0], UndoRun(prestate)[i].after, prestate)
                                       && (RollbackAccepts(UndoRun(prestate)[i].after, prestate) <==> i == 0)
  {
    forall i | 0 <= i < 5 ensures RecordedAt(UndoRun(prestate), i, prestate, Alone) {
    }
  }

  /** A rollback stopped after its own removal cannot be resumed: the receipt still names what is gone. */
  lemma InterruptedRemovalIsRefused(s: Step, prestate: nat)
    requires Does(s) && Owned(s.before) && (s.op.RemoveConfig? || s.op.RemoveDirectory?)
    ensures Refuses(s.after, prestate) && !Owned(RestoreRequest(s.after))
  {
  }

  /** Even where no drop-in was made: the unit restarted, and RESTORED not recorded. */
  lemma UnrecordedRestartIsRefused(prestate: nat)
    ensures var from := InstallWorlds(prestate)[3];
            var asked := RestoreRequest(from);
            var restarted := asked.(service := Running(prestate + 1));
            && InstallReaches(from, prestate) && from.dropin.None? && RollbackAccepts(from, prestate)
            && Recorded([Step(Journal, from, asked), Step(StartUnit, asked, restarted)], prestate, Alone)
            && UndoReaches(from, restarted, prestate) && !RollbackAccepts(restarted, prestate)
  {
    var from := InstallWorlds(prestate)[3];
    var asked := RestoreRequest(from);
    var run := [Step(Journal, from, asked), Step(StartUnit, asked, asked.(service := Running(prestate + 1)))];
    forall i | 0 <= i < 2 ensures RecordedAt(run, i, prestate, Alone) {
    }
  }

  /** And where the start was recorded but not accepted: the request to restore is recorded, and the unit that
      the first rollback was about to stop still runs. */
  lemma RequestOverUnacceptedStartIsRefused(prestate: nat)
    ensures var from := InstallWorlds(prestate)[12];
            var started := from.(receipt := from.receipt.(startIncarnation := Some(prestate + 1)));
            var asked := RestoreRequest(started);
            && InstallReaches(started, prestate) && RollbackAccepts(started, prestate)
            && Recorded([Step(ObserveUnit, started, started), Step(Journal, started, asked)], prestate, Alone)
            && UndoReaches(started, asked, prestate) && !RollbackAccepts(asked, prestate)
  {
    var from := InstallWorlds(prestate)[12];
    var started := from.(receipt := from.receipt.(startIncarnation := Some(prestate + 1)));
    var run := [Step(ObserveUnit, started, started), Step(Journal, started, RestoreRequest(started))];
    forall i | 0 <= i < 2 ensures RecordedAt(run, i, prestate, Alone) {
    }
  }

  // ----- inputs that show where others are hit

  /** Others put their own file at the staging name after its record; the sweep unlinks that file. */
  lemma SweptForeignFile(prestate: nat)
    ensures var w := InstallWorlds(prestate)[8];
            var swapped := With(w, WithFile(EMPTY, Staged("staging", 9)));
            var run := InstallRun(prestate, 8) + [Step(Sweep(FILE), swapped, With(w, EMPTY))];
            Recorded(run, prestate, InDirectory) && TakesForeignFile(run[8])
  {
    hide Recorded;
    var w := InstallWorlds(prestate)[8];
    var swapped := With(w, WithFile(EMPTY, Staged("staging", 9)));
    var swept := Step(Sweep(FILE), swapped, With(w, EMPTY));
    var run := InstallRun(prestate, 8);
    InstallRunIsRecorded(prestate, 8);
    AloneIsAnyCompany(run, prestate, InDirectory);
    RunIsStaged(prestate);
    assert WithFile(EMPTY, Staged("staging", 9)).others - {"staging"} == EMPTY.others;
    StepExtendsTheRun(run, swept, prestate, InDirectory);
    assert LosesFile(swept, "staging");
  }

  /** Others restart the unit between its last observation and the stop; the stop reaches their incarnation. */
  lemma StoppedForeignUnit(prestate: nat)
    ensures var w := InstallWorlds(prestate)[2];
            var restarted := w.(service := Running(prestate + 1));
            var run := InstallRun(prestate, 2) + [Step(StopUnit, restarted, w.(service := Stopped))];
            Recorded(run, prestate, Everywhere) && StopsUntied(run[2], prestate)
  {
    hide Recorded;
    var w := InstallWorlds(prestate)[2];
    var stop := Step(StopUnit, w.(service := Running(prestate + 1)), w.(service := Stopped));
    InstallRunIsRecorded(prestate, 2);
    AloneIsAnyCompany(InstallRun(prestate, 2), prestate, Everywhere);
    RunIsObserved(prestate);
    StepExtendsTheRun(InstallRun(prestate, 2), stop, prestate, Everywhere);
  }

  lemma AloneIsAnyCompany(steps: seq<Step>, prestate: nat, company: Company)
    requires Recorded(steps, prestate, Alone)
    ensures Recorded(steps, prestate, company)
  {
    forall i | 0 <= i < |steps| ensures RecordedAt(steps, i, prestate, company) {
      assert RecordedAt(steps, i, prestate, Alone);
    }
  }
}
