/** What the first-install transaction promises over whole runs: from the captured prestate, through
    a stop at any instruction of install or of rollback, to the restored targets. */
module FirstInstallRecovery {
  import opened Wrappers
  import opened FileWorld
  import opened FirstInstall
  import opened FirstInstallTransaction
  import opened FirstInstallPlacement
  import opened FirstInstallRun

  // ----- the captured prestate

  /** capture_install_prestate accepts: each present target is one regular file with one link and the
      recorded content, a preserved one already being the file to install; every other target is absent. */
  predicate CaptureAccepts(plan: seq<Row>, s: Store) {
    && (forall i, j :: 0 <= i < j < |plan| ==> plan[i].target != plan[j].target)
    && forall r :: r in plan ==>
         match r.prior
         case Absent => Target(r.target) !in s.names
         case Preserved(o, image) => Observed(s, Target(r.target), o, image, 1) && image == r.image
         case Replaced(o, image) =>
           Observed(s, Target(r.target), o, image, 1) && image.uid == image.gid == 0
  }

  function Originals(plan: seq<Row>): set<Inode> {
    set r | r in plan && !r.prior.Absent? :: r.prior.inode
  }

  /** The captured state is where install may start: distinct targets have distinct originals because
      each has a single link, and nothing of the transaction exists yet. */
  lemma CaptureIsWhereInstallStarts(plan: seq<Row>, s: Store)
    requires CaptureAccepts(plan, s) && s.journal.None? && s.owned == Originals(plan)
    requires forall n :: n in s.names ==> !Private(n) && s.names[n] in s.files
    ensures Captured(plan, s)
  {
    forall r | r in plan && !r.prior.Absent? ensures s.Links(r.prior.inode) == {Target(r.target)} {
      ObservedLinks(s, Target(r.target), r.prior.inode, r.prior.image);
    }
    forall r, q | r in plan && q in plan && r.target != q.target && !r.prior.Absent? && !q.prior.Absent?
      ensures r.prior.inode != q.prior.inode
    {
      assert Target(r.target) in s.Links(r.prior.inode) && Target(r.target) !in s.Links(q.prior.inode);
    }
    forall r | r in plan ensures RowSafe(r, None, s) {
      if r.prior.Replaced? { assert Retained(r.target) !in s.names; }
    }
  }

  // ----- stops

  /** Whatever step was the last, and whatever other actors did since, the state can be rolled back. */
  lemma AnyStopIsSafe(plan: seq<Row>, steps: seq<Step>, k: nat, stopped: Store)
    requires WellFormed(plan) && Recorded(plan, steps) && k < |steps|
    requires Interference(steps[k].before, stopped) || Interference(steps[k].after, stopped)
    ensures Safe(plan, stopped)
  {
    hide Safe;
    assert RecordedAt(plan, steps, k);
    if Interference(steps[k].before, stopped) {
      InterferenceKeepsSafe(plan, steps[k].before, stopped);
    } else {
      InterferenceKeepsSafe(plan, steps[k].after, stopped);
    }
  }

  /** A fresh process after a stop at step `k` of an earlier install or rollback. */
  method RollbackAfterStop(plan: seq<Row>, ghost earlier: seq<Step>, ghost k: nat, stopped: Store)
    returns (tx: Transaction, r: Outcome)
    requires WellFormed(plan) && Recorded(plan, earlier) && k < |earlier|
    requires Interference(earlier[k].before, stopped) || Interference(earlier[k].after, stopped)
    requires stopped.journal.Some?
    ensures fresh(tx) && tx.Sound(plan) && ByIdentity(plan, tx.steps, 0, stopped)
    ensures r.Done? ==> Restored(plan, tx.store) && tx.store.journal.Some? && Finished(tx.store.journal.value)
    ensures r.Denied? ==> RollbackRefusal(r.reason, tx.store) && (r.reason.Refused? ==> tx.refusals > 0)
  {
    AnyStopIsSafe(plan, earlier, k, stopped);
    tx := new Transaction(plan, stopped);
    r := tx.Rollback(plan);
  }

  /** Where a process may have stopped, and what other actors did since. */
  ghost predicate StoppedIn(steps: seq<Step>, last: Store, stopped: Store) {
    || Interference(last, stopped)
    || exists k :: 0 <= k < |steps| && (Interference(steps[k].before, stopped) || Interference(steps[k].after, stopped))
  }

  /** The process is gone: it finished, or it was killed before or after any of its steps.  Others act since. */
  method Stop(ghost plan: seq<Row>, tx: Transaction, finished: bool) returns (stopped: Store)
    requires tx.Sound(plan)
    ensures if finished then Interference(tx.store, stopped) else StoppedIn(tx.steps, tx.store, stopped)
  {
    SafeStaysItself(plan, tx.store);
    stopped := tx.store;
  }

  /** A stop of a rollback leaves a state that the next one starts from; a restored state stays one. */
  lemma StopCanBeRolledBack(plan: seq<Row>, tx: Transaction, from: Store, stopped: Store)
    requires tx.Sound(plan) && from.journal.Some? && tx.store.journal.Some?
    requires ByIdentity(plan, tx.steps, 0, from) && StoppedIn(tx.steps, tx.store, stopped)
    ensures Safe(plan, stopped) && stopped.journal.Some?
    ensures Restored(plan, from) && Restored(plan, tx.store) ==> Restored(plan, stopped)
    ensures Interference(tx.store, stopped) && Restored(plan, tx.store) ==> Restored(plan, stopped)
  {
    hide Safe, Restored, RecordedAt;
    if Interference(tx.store, stopped) {
      InterferenceKeepsSafe(plan, tx.store, stopped);
      if Restored(plan, tx.store) { InterferenceKeepsRestored(plan, tx.store, stopped); }
    } else {
      var k :| && 0 <= k < |tx.steps|
               && (Interference(tx.steps[k].before, stopped) || Interference(tx.steps[k].after, stopped));
      AnyStopIsSafe(plan, tx.steps, k, stopped);
      if Restored(plan, from) {
        if Interference(tx.steps[k].before, stopped) {
          InterferenceKeepsRestored(plan, tx.steps[k].before, stopped);
        } else {
          InterferenceKeepsRestored(plan, tx.steps[k].after, stopped);
        }
      }
    }
  }

  /** Every state of the run is restored and no step changes a name. */
  ghost predicate ChangesNoTarget(plan: seq<Row>, steps: seq<Step>) {
    forall m :: 0 <= m < |steps| ==>
      steps[m].before.names == steps[m].after.names && Restored(plan, steps[m].before) && Restored(plan, steps[m].after)
  }

  /** Every target that was present is on its original inode, which has no other link. */
  ghost predicate OriginalTargets(plan: seq<Row>, s: Store) {
    forall r :: r in plan && !r.prior.Absent? ==>
      s.Is(Target(r.target), r.prior.inode) && s.Links(r.prior.inode) == {Target(r.target)}
  }

  lemma RestoredTargetsAreOriginal(plan: seq<Row>, s: Store)
    requires Restored(plan, s)
    ensures OriginalTargets(plan, s)
  {
    forall r | r in plan && !r.prior.Absent?
      ensures s.Is(Target(r.target), r.prior.inode) && s.Links(r.prior.inode) == {Target(r.target)}
    {
      assert RowRestored(r, s);
      ObservedLinks(s, Target(r.target), r.prior.inode, r.prior.image);
    }
  }

  /** What a completed rollback leaves. */
  ghost predicate Ends(plan: seq<Row>, s: Store) {
    Restored(plan, s) && OriginalTargets(plan, s) && s.journal.Some? && Finished(s.journal.value)
  }

  /** Any number of rollbacks, each by a new process over what the previous one left: it may have been killed
      before or after any of its steps, or have finished, and others act in between.  The last one is left to
      end.  begun: where each started; ends: the last store of each; completed: which earlier ones finished. */
  method RollbackThroughStops(plan: seq<Row>, start: Store, stops: nat)
    returns (tx: Transaction, r: Outcome, ghost runs: seq<seq<Step>>, ghost completed: seq<bool>,
             ghost begun: seq<Store>, ghost ends: seq<Store>)
    requires WellFormed(plan) && Safe(plan, start) && start.journal.Some?
    ensures fresh(tx) && tx.Sound(plan) && |completed| == stops && |runs| == stops + 1 && runs[stops] == tx.steps
    ensures |begun| == |ends| == stops + 1 && begun[0] == start && ends[stops] == tx.store
    ensures forall i :: 0 <= i < |runs| ==> Recorded(plan, runs[i])
    ensures forall i :: 0 <= i < stops ==>
              if completed[i] then Ends(plan, ends[i]) && Interference(ends[i], begun[i + 1])
              else StoppedIn(runs[i], ends[i], begun[i + 1])
    ensures r.Done? ==> tx.store.journal.Some? && Finished(tx.store.journal.value)
    ensures r.Done? || (exists i :: 0 <= i < stops && completed[i]) || Restored(plan, start) ==>
              Restored(plan, tx.store) && OriginalTargets(plan, tx.store)
    ensures r.Denied? ==> RollbackRefusal(r.reason, tx.store) && (r.reason.Refused? ==> tx.refusals > 0)
    ensures forall i, j :: 0 <= i < j < |runs| && i < stops && completed[i] ==> ChangesNoTarget(plan, runs[j])
    ensures Restored(plan, start) ==> forall j :: 0 <= j < |runs| ==> ChangesNoTarget(plan, runs[j])
  {
    hide Safe, Restored, Recorded, Linked, WellFormed, RollbackRefusal, Finished, OriginalTargets;
    hide Ends, StoppedIn, Interference;
    var s := start;
    runs, completed, begun, ends := [], [], [start], [];
    ghost var done := Restored(plan, start);
    for n := 0 to stops
      invariant Safe(plan, s) && s.journal.Some? && |runs| == |completed| == n
      invariant |ends| == n && |begun| == n + 1 && begun[0] == start && begun[n] == s
      invariant forall i :: 0 <= i < n ==>
                  if completed[i] then Ends(plan, ends[i]) && Interference(ends[i], begun[i + 1])
                  else StoppedIn(runs[i], ends[i], begun[i + 1])
      invariant done ==> Restored(plan, s)
      invariant Restored(plan, start) ==> done
      invariant forall i :: 0 <= i < n && completed[i] ==> done
      invariant forall i :: 0 <= i < n ==> Recorded(plan, runs[i])
      invariant forall i, j :: 0 <= i < j < n && completed[i] ==> ChangesNoTarget(plan, runs[j])
      invariant Restored(plan, start) ==> forall j :: 0 <= j < n ==> ChangesNoTarget(plan, runs[j])
    {
      var finished;
      ghost var steps, end;
      s, finished, steps, end := OneRollback(plan, s);
      runs, completed, begun, ends := runs + [steps], completed + [finished], begun + [s], ends + [end];
      done := done || finished;
    }
    tx := new Transaction(plan, s);
    r := tx.Rollback(plan);
    runs, ends := runs + [tx.steps], ends + [tx.store];
    if Restored(plan, tx.store) { RestoredTargetsAreOriginal(plan, tx.store); }
  }

  /** One process of the chain: a rollback that finishes, or is stopped anywhere. */
  method OneRollback(plan: seq<Row>, from: Store)
    returns (s: Store, finished: bool, ghost steps: seq<Step>, ghost end: Store)
    requires WellFormed(plan) && Safe(plan, from) && from.journal.Some?
    ensures Safe(plan, s) && s.journal.Some? && Recorded(plan, steps)
    ensures if finished then Ends(plan, end) && Interference(end, s) else StoppedIn(steps, end, s)
    ensures finished || Restored(plan, from) ==> Restored(plan, s)
    ensures Restored(plan, from) ==> ChangesNoTarget(plan, steps)
  {
    hide Safe, Restored, Recorded, Linked, WellFormed, RollbackRefusal, Finished;
    var tx := new Transaction(plan, from);
    var r := tx.Rollback(plan);
    steps, end := tx.steps, tx.store;
    var killed: bool := *;
    finished := r.Done? && !killed;
    if finished { RestoredTargetsAreOriginal(plan, tx.store); }
    s := Stop(plan, tx, finished);
    StopCanBeRolledBack(plan, tx, from, s);
  }

  // ----- foreign files

  /** Some foreign inode loses a name in the step. */
  ghost predicate TakesForeignName(s: Step) {
    exists n :: n in s.before.names && s.before.names[n] !in s.before.owned
                && !(n in s.after.names && s.after.names[n] == s.before.names[n])
  }

  /** Over every run of install and rollback: a step takes a name from another actor exactly when the step
      before it was the rename over a retained original, which frees the staging name, and the sweep finds
      that name taken again. */
  lemma ForeignNameIsTakenIff(plan: seq<Row>, steps: seq<Step>, k: nat)
    requires Recorded(plan, steps) && k < |steps|
    ensures TakesForeignName(steps[k]) <==> k > 0 && SweepsFreedName(plan, steps[k - 1], steps[k])
  {
    hide Safe;
    assert RecordedAt(plan, steps, k);
    if k > 0 && SweepsFreedName(plan, steps[k - 1], steps[k]) {
      var row, nonce :| row in plan && Replaces(row, nonce, steps[k - 1]) && Temporary(nonce) in steps[k].before.names
                        && steps[k].after == steps[k].before.Unlink(Temporary(nonce));
      assert Temporary(nonce) !in steps[k - 1].after.names;
    }
  }

  /** So a run that replaces nothing takes nothing from anybody. */
  lemma NothingReplacedNothingTaken(plan: seq<Row>, steps: seq<Step>, k: nat)
    requires Recorded(plan, steps) && k < |steps| && forall r :: r in plan ==> !r.prior.Replaced?
    ensures !TakesForeignName(steps[k])
  {
    ForeignNameIsTakenIff(plan, steps, k);
  }

  /** In every step a foreign inode keeps its content, and it keeps its names unless the step is such a sweep
      and the name is the freed one. */
  lemma ForeignFilesSurvive(plan: seq<Row>, steps: seq<Step>, k: nat, n: Name)
    requires Recorded(plan, steps) && k < |steps|
    requires n in steps[k].before.names && steps[k].before.names[n] !in steps[k].before.owned
    ensures var i := steps[k].before.names[n];
            && i in steps[k].before.files && i in steps[k].after.files
            && steps[k].after.files[i] == steps[k].before.files[i]
            && (steps[k].after.Is(n, i)
                || (n.Temporary? && k > 0 && exists row :: row in plan && Replaces(row, n.nonce, steps[k - 1])))
  {
    hide Safe;
    assert RecordedAt(plan, steps, k);
    NamesHaveFiles(plan, steps[k].before);
  }

  lemma NamesHaveFiles(plan: seq<Row>, s: Store)
    requires Safe(plan, s)
    ensures forall n :: n in s.names ==> s.names[n] in s.files
  {
  }

  // ----- it does happen

  const OLD := Image("old", 420, 0, 0)
  const NEW := Image("new", 420, 0, 0)

  /** One replaced target, and its custody. */
  const ROW := Row("t", Authority, NEW, Replaced(1, OLD))
  const ENTRY := Custody("t", 2, 7)

  // The stores of its install, operation by operation.
  const CAPTURED := Store(map[Target("t") := 1], map[1 := OLD], None, {1})
  const JOURNALLED := CAPTURED.Record(Journal(Installing, [], []))
  const COPIED := JOURNALLED.Create(Preimage("t"), 3, OLD.(mode := OWNER_ONLY))
  const RETAINED := COPIED.Link(Target("t"), Retained("t"))
  const STAGED := RETAINED.Create(Temporary(7), 2, NEW)
  const INTENDED := STAGED.Record(Journal(Installing, [], [ENTRY]))
  const RENAMED := INTENDED.Move(Temporary(7), Target("t"))

  /** Another actor takes the freed staging name, and the sweep unlinks it. */
  const THEIRS := Image("theirs", 420, 0, 0)
  const TAKEN := RENAMED.(names := RENAMED.names[Temporary(7) := 4], files := RENAMED.files[4 := THEIRS])
  const SWEPT := TAKEN.Unlink(Temporary(7))

  const RUN := [
    Step(CAPTURED, JOURNALLED, false), Step(JOURNALLED, COPIED, false), Step(COPIED, RETAINED, false),
    Step(RETAINED, STAGED, false), Step(STAGED, INTENDED, false), Step(INTENDED, RENAMED, false),
    Step(TAKEN, SWEPT, true)]

  lemma CaptureOfTheRow()
    ensures WellFormed([ROW]) && Captured([ROW], CAPTURED) && Safe([ROW], CAPTURED)
  {
    hide Safe;
    assert CAPTURED.Links(1) == {Target("t")};
    assert |CAPTURED.Links(1)| == 1;
    CaptureIsWhereInstallStarts([ROW], CAPTURED);
  }

  lemma JournalOfTheRow()
    ensures Safe([ROW], JOURNALLED) && Considerate(Step(CAPTURED, JOURNALLED, false))
  {
    hide Safe;
    CaptureOfTheRow();
    ProgressKeepsSafe([ROW], CAPTURED, Journal(Installing, [], []));
  }

  lemma CopyOfTheRow()
    ensures Safe([ROW], COPIED) && Considerate(Step(JOURNALLED, COPIED, false))
  {
    hide Safe;
    JournalOfTheRow();
    assert ROW in [ROW] && IsCopyOf(ROW, Preimage("t"), OLD.(mode := OWNER_ONLY));
    CreateKeepsSafe([ROW], JOURNALLED, Preimage("t"), 3, OLD.(mode := OWNER_ONLY));
  }

  lemma SecondLinkOfTheRow()
    ensures Safe([ROW], RETAINED) && Considerate(Step(COPIED, RETAINED, false))
    ensures RETAINED.Links(1) == {Target("t"), Retained("t")}
  {
    hide Safe;
    CaptureOfTheRow();
    CopyOfTheRow();
    RetainKeepsSafe([ROW], COPIED, ROW);
  }

  lemma StagingOfTheRow()
    ensures Safe([ROW], STAGED) && Considerate(Step(RETAINED, STAGED, false)) && STAGED.Links(2) == {Temporary(7)}
  {
    hide Safe;
    SecondLinkOfTheRow();
    CreateKeepsSafe([ROW], RETAINED, Temporary(7), 2, NEW);
  }

  lemma IntentOfTheRow()
    ensures Safe([ROW], INTENDED) && Considerate(Step(STAGED, INTENDED, false))
  {
    hide Safe;
    CaptureOfTheRow();
    StagingOfTheRow();
    assert STAGED.journal == JOURNALLED.journal == Some(Journal(Installing, [], []));
    var none: seq<Custody> := STAGED.Entries();
    assert none == [] && none + [ENTRY] == [ENTRY];
    assert InstallOrder([ROW]) == [ROW];
    IntentKeepsSafe([ROW], STAGED, ENTRY, []);
  }

  lemma RenameOfTheRow()
    ensures Safe([ROW], RENAMED) && Considerate(Step(INTENDED, RENAMED, false)) && Published(ROW, ENTRY, RENAMED)
    ensures Replaces(ROW, 7, Step(INTENDED, RENAMED, false))
  {
    hide Safe;
    CaptureOfTheRow();
    IntentOfTheRow();
    assert INTENDED.Links(1) == {Target("t"), Retained("t")};
    assert ClaimOf(INTENDED.Entries(), "t") == Some(ENTRY);
    ReplaceKeepsSafe([ROW], INTENDED, ROW, ENTRY);
  }

  lemma TakingAFreeName(plan: seq<Row>, s: Store, n: Name, i: Inode, image: Image)
    requires Safe(plan, s) && n !in s.names && !Private(n) && i !in s.files
    ensures Interference(s, s.(names := s.names[n := i], files := s.files[i := image]))
  {
  }

  lemma SweepOfTheRow()
    ensures Interference(RENAMED, TAKEN) && Safe([ROW], TAKEN) && Safe([ROW], SWEPT)
    ensures SweepsFreedName([ROW], Step(INTENDED, RENAMED, false), Step(TAKEN, SWEPT, true))
  {
    hide Safe, Replaces, Interference;
    RenameOfTheRow();
    TakingAFreeName([ROW], RENAMED, Temporary(7), 4, THEIRS);
    InterferenceKeepsSafe([ROW], RENAMED, TAKEN);
    UnlinkTemporaryKeepsSafe([ROW], TAKEN, Temporary(7));
  }

  /** The rename frees the staging name of a replaced row, another actor takes it before the sweep, and the
      sweep unlinks that actor's file: a whole run from the captured prestate. */
  lemma SweptForeignFile()
    ensures Captured([ROW], RUN[0].before) && Recorded([ROW], RUN) && TakesForeignName(RUN[6])
  {
    hide Safe, Considerate, SweepsFreedName, Captured, Interference;
    hide CAPTURED, JOURNALLED, COPIED, RETAINED, STAGED, INTENDED, RENAMED, TAKEN, SWEPT;
    CaptureOfTheRow();
    JournalOfTheRow();
    CopyOfTheRow();
    SecondLinkOfTheRow();
    StagingOfTheRow();
    IntentOfTheRow();
    RenameOfTheRow();
    SweepOfTheRow();
    SafeStaysItself([ROW], JOURNALLED);
    SafeStaysItself([ROW], COPIED);
    SafeStaysItself([ROW], RETAINED);
    SafeStaysItself([ROW], STAGED);
    SafeStaysItself([ROW], INTENDED);
    forall k | 0 <= k < |RUN| ensures RecordedAt([ROW], RUN, k) {
    }
    ForeignNameIsTakenIff([ROW], RUN, 6);
  }
}
