/** The transaction over one durable store: placement in receipt order, and the rollback that a
    failure or a fresh process runs.  Every durable operation is recorded with the states around
    it, so a promise about all recorded steps is a promise about a stop at any instruction. */
module FirstInstallTransaction {
  import opened Wrappers
  import opened FileWorld
  import opened FirstInstall

  /** One durable operation.  `freed` marks the removal of a staging name that its own inode had already
      left, the only operation that goes by name and not by inode. */
  datatype Step = Step(before: Store, after: Store, freed: bool)

  datatype Reason =
    | Refused                              // the caller's boundary or the operating system
    | TargetOccupied(target: string)       // KERNEL_FIRST_INSTALL_COLLISION_DENIED
    | ForeignTemporary(target: string)     // KERNEL_COMPENSATION_FOREIGN_TEMP
    | CustodyChanged                       // every other denial of install and rollback

  datatype Outcome = Done | Denied(reason: Reason)

  /** Foreign inodes keep their names and contents through the step. */
  ghost predicate Considerate(step: Step) {
    && step.before.owned <= step.after.owned
    && (forall n :: n in step.before.names && step.before.names[n] !in step.before.owned ==>
          n in step.after.names && step.after.names[n] == step.before.names[n])
    && (forall i :: i in step.before.files ==> i in step.after.files && step.after.files[i] == step.before.files[i])
  }

  /** The rename of a staged inode over the retained original of a replaced row; it frees the staging name. */
  ghost predicate Replaces(row: Row, nonce: nat, s: Step) {
    && row.prior.Replaced? && s.before.Is(Target(row.target), row.prior.inode)
    && Temporary(nonce) in s.before.names && s.before.names[Temporary(nonce)] != row.prior.inode
    && s.after == s.before.Move(Temporary(nonce), Target(row.target))
  }

  /** After such a rename the staging name is found taken, and is unlinked. */
  ghost predicate SweepsFreedName(plan: seq<Row>, rename: Step, sweep: Step) {
    exists row, nonce ::
      && row in plan && Replaces(row, nonce, rename)
      && Temporary(nonce) in sweep.before.names && sweep.after == sweep.before.Unlink(Temporary(nonce))
  }

  /** A run: safe at every step, with only other actors between two steps, and considerate but for sweeps of
      a freed name. */
  ghost predicate Recorded(plan: seq<Row>, steps: seq<Step>) {
    forall k :: 0 <= k < |steps| ==> RecordedAt(plan, steps, k)
  }

  ghost predicate RecordedAt(plan: seq<Row>, steps: seq<Step>, k: nat)
    requires k < |steps|
  {
    && Safe(plan, steps[k].before) && Safe(plan, steps[k].after)
    && (k > 0 ==> Interference(steps[k - 1].after, steps[k].before))
    && if steps[k].freed then k > 0 && SweepsFreedName(plan, steps[k - 1], steps[k]) else Considerate(steps[k])
  }

  /** Only other actors acted since the last step. */
  ghost predicate Linked(steps: seq<Step>, s: Store) {
    steps != [] ==> Interference(steps[|steps| - 1].after, s)
  }

  /** No sweep of a freed name from step `k` on.  Begun with a journal, every state has one; begun over a
      restored store, every state is restored and no name changes. */
  ghost predicate ByIdentity(plan: seq<Row>, steps: seq<Step>, k: nat, from: Store) {
    forall m :: k <= m < |steps| ==>
      && !steps[m].freed
      && (from.journal.Some? ==> steps[m].before.journal.Some? && steps[m].after.journal.Some?)
      && (Restored(plan, from) ==> && steps[m].before.names == steps[m].after.names
                                   && Restored(plan, steps[m].before) && Restored(plan, steps[m].after))
  }

  lemma InterferenceIsTransitive(s: Store, t: Store, u: Store)
    requires Interference(s, t) && Interference(t, u)
    ensures Interference(s, u)
  {
  }

  /** With no one else acting. */
  lemma SafeStaysItself(plan: seq<Row>, s: Store)
    requires Safe(plan, s)
    ensures Interference(s, s)
  {
  }

  lemma StepExtendsTheRun(plan: seq<Row>, steps: seq<Step>, s: Store, t: Store, freed: bool)
    requires Recorded(plan, steps) && Linked(steps, s) && Safe(plan, s) && Safe(plan, t)
    requires if freed then steps != [] && SweepsFreedName(plan, steps[|steps| - 1], Step(s, t, true))
             else Considerate(Step(s, t, false))
    ensures Recorded(plan, steps + [Step(s, t, freed)]) && Linked(steps + [Step(s, t, freed)], t)
  {
    hide Safe, Interference, SweepsFreedName, Considerate;
    SafeStaysItself(plan, t);
    var more := steps + [Step(s, t, freed)];
    forall k | 0 <= k < |more| ensures RecordedAt(plan, more, k) {
      if k < |steps| { assert RecordedAt(plan, steps, k); }
    }
  }

  // ----- what rollback has achieved for one custody entry

  ghost predicate Undone(plan: seq<Row>, e: Custody, s: Store) {
    && s.Links(e.inode) == {}
    && forall r :: r in plan && r.target == e.target && r.prior.Replaced? ==>
         s.Links(r.prior.inode) == {Target(r.target)}
  }

  /** All entries from `k` on are undone. */
  ghost predicate UndoneFrom(plan: seq<Row>, s: Store, k: nat) {
    forall m :: k <= m < |s.Entries()| ==> Undone(plan, s.Entries()[m], s)
  }

  /** Entries whose inodes and originals kept their links stay undone. */
  lemma OthersStayUndone(plan: seq<Row>, s: Store, t: Store, k: nat, row: Row, e: Custody)
    requires WellFormed(plan) && Safe(plan, s) && UndoneFrom(plan, s, k) && t.Entries() == s.Entries()
    requires row in plan && e in s.Entries() && e.target == row.target
    requires forall m :: k <= m < |s.Entries()| ==> s.Entries()[m].target != row.target
    requires forall j :: j != e.inode && (!row.prior.Absent? ==> j != row.prior.inode) ==> t.Links(j) == s.Links(j)
    ensures UndoneFrom(plan, t, k)
  {
    forall m | k <= m < |t.Entries()| ensures Undone(plan, t.Entries()[m], t) {
      var f := s.Entries()[m];
      assert Undone(plan, f, s);
      assert f in s.Entries();
      forall r | r in plan && r.target == f.target && r.prior.Replaced?
        ensures t.Links(r.prior.inode) == {Target(r.target)}
      {
        assert r.prior.inode != e.inode;
      }
    }
  }

  /** The receipt row of a target. */
  function RowOf(plan: seq<Row>, target: string): Row
    requires exists r :: r in plan && r.target == target
  {
    if plan[0].target == target then plan[0] else RowOf(plan[1..], target)
  }

  lemma {:induction false} RowOfTarget(plan: seq<Row>, target: string)
    requires exists r :: r in plan && r.target == target
    ensures RowOf(plan, target) in plan && RowOf(plan, target).target == target
  {
    if plan[0].target != target {
      var r :| r in plan && r.target == target;
      assert r in plan[1..];
      RowOfTarget(plan[1..], target);
    }
  }

  /** A denial that blames a refusal follows one, and after a refusal nothing is done. */
  predicate Counted(before: nat, after: nat, r: Outcome) {
    before <= after && (r.Denied? && r.reason.Refused? ==> before < after) && (r.Done? ==> after == before)
  }

  class Transaction {
    var store: Store
    ghost var steps: seq<Step>
    ghost var refusals: nat
    ghost var rollbacks: nat            // rollbacks that were begun

    constructor (ghost plan: seq<Row>, store: Store)
      requires WellFormed(plan) && Safe(plan, store)
      ensures this.store == store && steps == [] && refusals == rollbacks == 0 && Sound(plan)
    {
      this.store := store;
      steps, refusals, rollbacks := [], 0, 0;
    }

    ghost predicate Sound(plan: seq<Row>)
      reads this
    {
      WellFormed(plan) && Safe(plan, store) && Recorded(plan, steps) && Linked(steps, store)
    }

    /** The caller's boundary: other actors run, and it (or the operating system) may refuse. */
    method Pause(ghost plan: seq<Row>, ghost k: nat) returns (ok: bool)
      requires Sound(plan)
      modifies this`store, this`refusals
      ensures Sound(plan) && Interference(old(store), store)
      ensures Forward(plan, old(store), store, k)
      ensures refusals == if ok then old(refusals) else old(refusals) + 1
    {
      hide Safe, WellFormed, Recorded, Forward, Interference;
      ok := *;
      if !ok { refusals := refusals + 1; }
      SafeStaysItself(plan, store);
      var seen: Store := *;
      if !Interference(store, seen) { seen := store; }
      InterferenceKeepsSafe(plan, store, seen);
      InterferenceGoesForward(plan, store, seen, k);
      if steps != [] { InterferenceIsTransitive(steps[|steps| - 1].after, store, seen); }
      store := seen;
    }

    /** A creation that finds its name, or the inode it drew, taken: nothing else refuses this way. */
    method RefuseCreation(n: Name, inode: nat) returns (r: Outcome)
      requires n in store.names || inode in store.files
      modifies this`refusals
      ensures r == Denied(Refused) && refusals == old(refusals) + 1
    {
      refusals := refusals + 1;
      r := Denied(Refused);
    }

    /** One durable operation. */
    method Perform(ghost plan: seq<Row>, after: Store, ghost freed: bool)
      requires Sound(plan) && Safe(plan, after)
      requires if freed then steps != [] && SweepsFreedName(plan, steps[|steps| - 1], Step(store, after, true))
               else Considerate(Step(store, after, false))
      modifies this`store, this`steps, this`refusals
      ensures store == after && steps == old(steps) + [Step(old(store), after, freed)] && Sound(plan)
      ensures refusals == old(refusals)
    {
      StepExtendsTheRun(plan, steps, store, after, freed);
      steps := steps + [Step(store, after, freed)];
      store := after;
    }

    /** journal_write: written aside and renamed, so one atomic cell; it may also fail after taking effect. */
    method WriteJournal(ghost plan: seq<Row>, j: Journal, ghost k: nat) returns (r: Outcome)
      requires Sound(plan) && JournalShape(plan, j) && j.ownership == store.Entries()
      modifies this`store, this`steps, this`refusals
      ensures Sound(plan) && old(steps) <= steps && ByIdentity(plan, steps, |old(steps)|, old(store))
      ensures r.Done? ==> store.journal == Some(j)
      ensures r.Denied? ==> r.reason.Refused?
      ensures old(store).journal.Some? ==> store.journal.Some?
      ensures Forward(plan, old(store), store, k)
      ensures Counted(old(refusals), refusals, r)
    {
      hide Safe, WellFormed, Recorded, Linked, Restored, UndoneFrom, JournalShape;
      var ok := Pause(plan, k);
      if !ok { return Denied(Refused); }
      ProgressKeepsSafe(plan, store, j);
      RecordKeepsProgress(plan, store, j, k);
      Perform(plan, store.Record(j), false);
      ok := Pause(plan, k);
      r := if ok then Done else Denied(Refused);
    }

    /** One candidate name of a formerly absent row: unlink it only if it is our inode. */
    method RemoveOwned(plan: seq<Row>, row: Row, e: Custody, candidate: Name, ghost k: nat) returns (r: Outcome)
      requires Sound(plan) && row in plan && row.prior.Absent? && ClaimOf(store.Entries(), row.target) == Some(e)
      requires candidate == Target(row.target) || candidate == Temporary(e.temporary)
      requires forall m :: k <= m < |store.Entries()| ==> store.Entries()[m].target != row.target
      modifies this`store, this`steps, this`refusals
      ensures Sound(plan) && Forward(plan, old(store), store, k) && store.journal == old(store).journal
      ensures old(steps) <= steps && ByIdentity(plan, steps, |old(steps)|, old(store))
      ensures r.Denied? ==> r.reason.Refused?
      ensures store.Links(e.inode) <= old(store).Links(e.inode)
      ensures r.Done? ==> candidate !in store.Links(e.inode)
      ensures Counted(old(refusals), refusals, r)
    {
      hide Recorded, Linked, WellFormed, Restored, UndoneFrom, StoreShape, Considerate;
      assert RowSafe(row, Some(e), store);
      var ok := Pause(plan, k);
      InterferenceKeepsLinks(old(store), store, e.inode);
      assert RowSafe(row, Some(e), store);
      if !ok { return Denied(Refused); }
      if !store.Is(candidate, e.inode) { return Done; }
      if store.files[e.inode] != row.image { return Denied(CustodyChanged); }
      ghost var s0 := store;
      ok := Pause(plan, k);
      InterferenceKeepsLinks(s0, store, e.inode);
      if !ok { return Denied(Refused); }
      assert RowSafe(row, Some(e), store);
      assert store.Is(candidate, e.inode) by { assert candidate in s0.Links(e.inode); }
      if !store.Is(candidate, e.inode) || store.files[e.inode] != row.image { return Denied(CustodyChanged); }
      RemovalGoesForward(plan, store, row, e, candidate, k);
      Perform(plan, store.Unlink(candidate), false);
      r := Done;
    }

    method UndoAbsent(plan: seq<Row>, row: Row, e: Custody, ghost k: nat) returns (r: Outcome)
      requires Sound(plan) && row in plan && row.prior.Absent? && ClaimOf(store.Entries(), row.target) == Some(e)
      requires forall m :: k <= m < |store.Entries()| ==> store.Entries()[m].target != row.target
      modifies this`store, this`steps, this`refusals
      ensures Sound(plan) && Forward(plan, old(store), store, k) && store.journal == old(store).journal
      ensures old(steps) <= steps && ByIdentity(plan, steps, |old(steps)|, old(store))
      ensures r.Denied? ==> r.reason.Refused?
      ensures r.Done? ==> store.Links(e.inode) == {}
      ensures Counted(old(refusals), refusals, r)
    {
      hide Recorded, Linked, WellFormed, Restored, UndoneFrom, StoreShape;
      r := RemoveOwned(plan, row, e, Target(row.target), k);
      if r.Denied? { return; }
      ghost var links := store.Links(e.inode);
      r := RemoveOwned(plan, row, e, Temporary(e.temporary), k);
      assert RowSafe(row, Some(e), store);
    }

    /** Drop the retained link of a target that still is, or again is, its original inode. */
    method ReleaseRetained(plan: seq<Row>, row: Row, ghost k: nat) returns (r: Outcome)
      requires Sound(plan) && row in plan && row.prior.Replaced?
      requires store.Is(Target(row.target), row.prior.inode)
      modifies this`store, this`steps, this`refusals
      ensures Sound(plan) && Forward(plan, old(store), store, k) && store.journal == old(store).journal
      ensures old(steps) <= steps && ByIdentity(plan, steps, |old(steps)|, old(store))
      ensures r.Denied? ==> r.reason.Refused?
      ensures r.Done? ==> store.Links(row.prior.inode) == {Target(row.target)}
      ensures forall j :: j in old(store).owned && j != row.prior.inode ==> store.Links(j) == old(store).Links(j)
      ensures Counted(old(refusals), refusals, r)
    {
      hide Recorded, Linked, Safe, WellFormed, Restored, UndoneFrom, Considerate;
      var here, held, o, image := Target(row.target), Retained(row.target), row.prior.inode, row.prior.image;
      OriginalsAreOwned(plan, store);
      RowIsPlacedOrHeld(plan, store, row);
      if held in store.names {
        if !Observed(store, held, o, image, 2) { return Denied(CustodyChanged); }
        var ok := Pause(plan, k);
        InterferenceKeepsAllLinks(old(store), store);
        if !ok { return Denied(Refused); }
        RowIsPlacedOrHeld(plan, store, row);
        if !Observed(store, held, o, image, 2) { return Denied(CustodyChanged); }
        var s := store;
        ReleaseKeepsSafe(plan, s, row);
        UnbindLinks(s.names, held);
        ReleaseGoesForward(plan, s, s.Unlink(held), k, row);
        Perform(plan, s.Unlink(held), false);
      }
      RowIsPlacedOrHeld(plan, store, row);
      if !Observed(store, here, o, image, 1) { return Denied(CustodyChanged); }
      r := Done;
    }

    /** Rename the retained original back over the staged inode. */
    method Reinstate(plan: seq<Row>, row: Row, e: Custody, ghost k: nat) returns (r: Outcome)
      requires Sound(plan) && row in plan && row.prior.Replaced? && ClaimOf(store.Entries(), row.target) == Some(e)
      requires store.Is(Target(row.target), e.inode) && e in store.Entries()
      requires forall m :: k <= m < |store.Entries()| ==> store.Entries()[m].target != row.target
      modifies this`store, this`steps, this`refusals
      ensures Sound(plan) && Forward(plan, old(store), store, k) && store.journal == old(store).journal
      ensures old(steps) <= steps && ByIdentity(plan, steps, |old(steps)|, old(store))
      ensures r.Denied? ==> r.reason.Refused?
      ensures r.Done? ==> store.Links(row.prior.inode) == {Target(row.target)} && store.Links(e.inode) == {}
      ensures Counted(old(refusals), refusals, r)
    {
      hide Recorded, Linked, Restored, UndoneFrom, Safe, WellFormed, Considerate, ClaimOf;
      OriginalsAreOwned(plan, store);
      EntriesAreOwned(plan, store, e);
      var here, held, o, image := Target(row.target), Retained(row.target), row.prior.inode, row.prior.image;
      StagedRowHolds(plan, store, row, e);
      if store.files[e.inode] != row.image || !Observed(store, held, o, image, 1) { return Denied(CustodyChanged); }
      var ok := Pause(plan, k);
      InterferenceKeepsAllLinks(old(store), store);
      if !ok { return Denied(Refused); }
      StagedRowHolds(plan, store, row, e);
      if !Backup(row, store) || !Observed(store, held, o, image, 1)
         || !store.Is(here, e.inode) || store.files[e.inode] != row.image { return Denied(CustodyChanged); }
      var s := store;
      ReinstateGoesForward(plan, s, row, e, k);
      Perform(plan, s.Move(held, here), false);
      ghost var t := store;
      ok := Pause(plan, k);
      InterferenceKeepsLinks(t, store, o);
      InterferenceKeepsLinks(t, store, e.inode);
      ObservedLinks(store, here, o, image);
      if !ok { return Denied(Refused); }
      if !Observed(store, here, o, image, 1) { return Denied(CustodyChanged); }
      r := Done;
    }

    method UndoReplaced(plan: seq<Row>, row: Row, e: Custody, ghost k: nat) returns (r: Outcome)
      requires Sound(plan) && row in plan && row.prior.Replaced? && ClaimOf(store.Entries(), row.target) == Some(e)
      requires e in store.Entries()
      requires forall m :: k <= m < |store.Entries()| ==> store.Entries()[m].target != row.target
      modifies this`store, this`steps, this`refusals
      ensures Sound(plan) && Forward(plan, old(store), store, k) && store.journal == old(store).journal
      ensures old(steps) <= steps && ByIdentity(plan, steps, |old(steps)|, old(store))
      ensures r.Denied? ==> r.reason.Refused? ||
                            (r.reason == ForeignTemporary(row.target) && Squatted(e, store))
      ensures r.Done? ==> store.Links(row.prior.inode) == {Target(row.target)} && store.Links(e.inode) == {}
      ensures Counted(old(refusals), refusals, r)
    {
      hide Recorded, Linked, WellFormed, Restored, UndoneFrom, StoreShape;
      var here, o := Target(row.target), row.prior.inode;
      var ok := Pause(plan, k);
      if !ok { return Denied(Refused); }
      assert RowSafe(row, Some(e), store);
      TargetOfReplacedRow(plan, store, row, e);
      if !Backup(row, store) { return Denied(CustodyChanged); }
      if here !in store.names { return Denied(CustodyChanged); }
      if store.names[here] == o {
        r := ReleaseRetained(plan, row, k);
      } else if store.names[here] == e.inode {
        r := Reinstate(plan, row, e, k);
      } else {
        return Denied(CustodyChanged);
      }
      if r.Denied? { return; }
      ClaimIsRecorded(store.Entries(), row.target);
      assert RowSafe(row, Some(e), store);
      r := RemoveStaged(plan, row, e, k);
    }

    /** The leftover staging name of a replaced row. */
    method RemoveStaged(plan: seq<Row>, row: Row, e: Custody, ghost k: nat) returns (r: Outcome)
      requires Sound(plan) && row in plan && row.prior.Replaced? && ClaimOf(store.Entries(), row.target) == Some(e)
      requires e in store.Entries() && store.Links(row.prior.inode) == {Target(row.target)}
      requires forall m :: k <= m < |store.Entries()| ==> store.Entries()[m].target != row.target
      modifies this`store, this`steps, this`refusals
      ensures Sound(plan) && Forward(plan, old(store), store, k) && store.journal == old(store).journal
      ensures old(steps) <= steps && ByIdentity(plan, steps, |old(steps)|, old(store))
      ensures r.Denied? ==> r.reason == ForeignTemporary(row.target) && Squatted(e, store)
      ensures r.Done? ==> store.Links(row.prior.inode) == {Target(row.target)} && store.Links(e.inode) == {}
      ensures Counted(old(refusals), refusals, r)
    {
      hide Recorded, Linked, WellFormed, StoreShape;
      var temporary := Temporary(e.temporary);
      ClaimIsRecorded(store.Entries(), row.target);
      assert RowSafe(row, Some(e), store);
      assert temporary in store.Links(e.inode) <==> store.Is(temporary, e.inode);
      if temporary in store.names {
        if store.names[temporary] != e.inode { return Denied(ForeignTemporary(row.target)); }
        if store.files[e.inode] != row.image { return Denied(CustodyChanged); }
        var s := store;
        UnlinkTemporaryKeepsSafe(plan, s, temporary);
        UnbindLinks(s.names, temporary);
        Perform(plan, s.Unlink(temporary), false);
        if UndoneFrom(plan, s, k) { OthersStayUndone(plan, s, store, k, row, e); }
      }
      r := Done;
    }

    /** rollback_transaction: accepts the journal of any stop, undoes custody in reverse by inode
        identity, and can itself be stopped anywhere and run again. */
    method Rollback(plan: seq<Row>) returns (r: Outcome)
      requires Sound(plan) && store.journal.Some?
      modifies this
      ensures Sound(plan) && old(steps) <= steps && rollbacks == old(rollbacks) + 1
      ensures ByIdentity(plan, steps, |old(steps)|, old(store))
      ensures store.Entries() == old(store).Entries() && store.owned == old(store).owned
      ensures store.journal.Some? && (r.Done? ==> Restored(plan, store) && Finished(store.journal.value))
      ensures r.Denied? ==> RollbackRefusal(r.reason, store)
      ensures Restored(plan, old(store)) ==> Restored(plan, store)
      ensures Counted(old(refusals), refusals, r)
    {
      hide Safe, Restored, Recorded, WellFormed, Finished, RollbackRefusal;
      rollbacks := rollbacks + 1;
      r := UndoJournalled(plan);
    }

    /** From the accepted journal to the completion record. */
    method UndoJournalled(plan: seq<Row>) returns (r: Outcome)
      requires Sound(plan) && store.journal.Some?
      modifies this`store, this`steps, this`refusals
      ensures Sound(plan) && old(steps) <= steps
      ensures ByIdentity(plan, steps, |old(steps)|, old(store))
      ensures store.Entries() == old(store).Entries() && store.owned == old(store).owned
      ensures store.journal.Some? && (r.Done? ==> Restored(plan, store) && Finished(store.journal.value))
      ensures r.Denied? ==> RollbackRefusal(r.reason, store)
      ensures Restored(plan, old(store)) ==> Restored(plan, store)
      ensures Counted(old(refusals), refusals, r)
    {
      hide Safe, Restored, UndoneFrom, Recorded, Linked, WellFormed, FollowsOrder, Prefix, InstallOrder;
      JournalIsAccepted(plan, store);
      var completed, ownership;
      r, completed, ownership := AcceptJournal(plan);
      if r.Denied? { return; }
      r := WriteJournal(plan, Journal(RollingBack, completed, ownership), |ownership|);
      if r.Denied? { return; }
      r, completed := UndoAll(plan, completed, ownership);
      if r.Denied? { return; }
      r := Finish(plan, completed, ownership);
    }

    /** Residue check, the last retained links, and the completion record. */
    method Finish(plan: seq<Row>, completed: seq<string>, ownership: seq<Custody>) returns (r: Outcome)
      requires Sound(plan) && store.journal.Some? && store.Entries() == ownership && UndoneFrom(plan, store, 0)
      requires ReversePrefix(completed, ownership) && |completed| == |ownership|
      modifies this`store, this`steps, this`refusals
      ensures Sound(plan) && old(steps) <= steps
      ensures ByIdentity(plan, steps, |old(steps)|, old(store))
      ensures store.Entries() == old(store).Entries() && store.owned == old(store).owned
      ensures store.journal.Some? && (r.Done? ==> Restored(plan, store) && Finished(store.journal.value))
      ensures r.Denied? ==> r.reason.Refused?
      ensures Restored(plan, old(store)) ==> Restored(plan, store)
      ensures Counted(old(refusals), refusals, r)
    {
      hide Safe, Restored, UndoneFrom, Recorded, Linked, WellFormed, FollowsOrder, InstallOrder;
      JournalIsAccepted(plan, store);
      UndoneLeavesNoResidue(plan, store);
      if !NoResidue(ownership, store) { return Denied(CustodyChanged); }
      r := ReleaseAll(plan);
      if r.Denied? { return; }
      r := WriteJournal(plan, Journal(RollbackComplete, completed, ownership), 0);
    }

    /** The order checks on the journal: they accept every journal of an interrupted install or rollback. */
    method AcceptJournal(plan: seq<Row>) returns (r: Outcome, completed: seq<string>, ownership: seq<Custody>)
      requires store.journal.Some? && JournalShape(plan, store.journal.value)
      ensures r.Done? && ownership == store.journal.value.ownership
      ensures ReversePrefix(completed, ownership) && FollowsOrder(InstallOrder(plan), ownership)
      ensures completed == if store.journal.value.state in {RollingBack, RollbackComplete}
                           then store.journal.value.completed else []
    {
      completed, ownership := store.journal.value.completed, store.journal.value.ownership;
      if !FollowsOrder(InstallOrder(plan), ownership) { return Denied(CustodyChanged), completed, ownership; }
      if store.journal.value.state in {Installing, InstalledInactive} {
        if !Prefix(completed, ownership) || |ownership| - |completed| > 1 {
          return Denied(CustodyChanged), completed, ownership;
        }
        completed := [];
      } else if !ReversePrefix(completed, ownership) {
        return Denied(CustodyChanged), completed, ownership;
      }
      r := Done;
    }

    /** One custody entry: its row is undone, and the completion record grows by it unless it covers it. */
    method UndoEntry(plan: seq<Row>, completed0: seq<string>, ownership: seq<Custody>, k: nat)
      returns (r: Outcome, completed: seq<string>)
      requires Sound(plan) && store.journal == Some(Journal(RollingBack, completed0, ownership)) && k < |ownership|
      requires ReversePrefix(completed0, ownership) && |completed0| >= |ownership| - 1 - k
      requires FollowsOrder(InstallOrder(plan), ownership) && UndoneFrom(plan, store, k + 1)
      modifies this`store, this`steps, this`refusals
      ensures Sound(plan) && old(steps) <= steps && store.journal.Some?
      ensures ByIdentity(plan, steps, |old(steps)|, old(store))
      ensures store.Entries() == ownership && store.owned == old(store).owned
      ensures Restored(plan, old(store)) ==> Restored(plan, store)
      ensures r.Denied? ==> RollbackRefusal(r.reason, store)
      ensures r.Done? ==> store.journal == Some(Journal(RollingBack, completed, ownership))
                          && UndoneFrom(plan, store, k)
      ensures r.Done? ==> ReversePrefix(completed, ownership) && |completed| >= |ownership| - k
      ensures Counted(old(refusals), refusals, r)
    {
      hide Safe, Restored, Undone, Recorded, Linked, WellFormed, FollowsOrder, Squatted, RowOf, ClaimOf, InstallOrder;
      completed := completed0;
      var item := ownership[k];
      EntryHasItsRow(plan, store, k);
      var row := RowOf(plan, item.target);
      if row.prior.Replaced? {
        r := UndoReplaced(plan, row, item, k + 1);
      } else {
        r := UndoAbsent(plan, row, item, k + 1);
      }
      if r.Denied? { return; }
      OneMoreUndone(plan, store, k, row);
      EntriesAreDistinct(plan, store);
      CompletionFollowsTheReverse(ownership, completed, k);
      if item.target !in completed {
        completed := completed + [item.target];
        r := WriteJournal(plan, Journal(RollingBack, completed, ownership), k);
      }
    }

    /** The reverse loop over custody. */
    method UndoAll(plan: seq<Row>, completed0: seq<string>, ownership: seq<Custody>)
      returns (r: Outcome, completed: seq<string>)
      requires Sound(plan) && store.journal == Some(Journal(RollingBack, completed0, ownership))
      requires ReversePrefix(completed0, ownership) && FollowsOrder(InstallOrder(plan), ownership)
      modifies this`store, this`steps, this`refusals
      ensures Sound(plan) && old(steps) <= steps && store.journal.Some?
      ensures ByIdentity(plan, steps, |old(steps)|, old(store))
      ensures store.Entries() == ownership && store.owned == old(store).owned
      ensures Restored(plan, old(store)) ==> Restored(plan, store)
      ensures r.Denied? ==> RollbackRefusal(r.reason, store)
      ensures r.Done? ==> UndoneFrom(plan, store, 0) && ReversePrefix(completed, ownership)
                          && |completed| == |ownership|
      ensures Counted(old(refusals), refusals, r)
    {
      hide Safe, Restored, UndoneFrom, Recorded, Linked, WellFormed, FollowsOrder, RollbackRefusal, InstallOrder;
      EverythingAheadIsUndone(plan, store);
      completed := completed0;
      var k := |ownership|;
      while k > 0
        invariant 0 <= k <= |ownership| && |completed| >= |ownership| - k && ReversePrefix(completed, ownership)
        invariant Sound(plan) && old(steps) <= steps && ByIdentity(plan, steps, |old(steps)|, old(store))
        invariant store.journal == Some(Journal(RollingBack, completed, ownership))
        invariant store.owned == old(store).owned && refusals == old(refusals)
        invariant Restored(plan, old(store)) ==> Restored(plan, store)
        invariant UndoneFrom(plan, store, k)
      {
        k := k - 1;
        r, completed := UndoEntry(plan, completed, ownership, k);
        if r.Denied? { return; }
      }
      r := Done;
    }

    /** The last loop: retained links of rows whose placement never began. */
    method ReleaseAll(plan: seq<Row>) returns (r: Outcome)
      requires Sound(plan) && UndoneFrom(plan, store, 0)
      modifies this`store, this`steps, this`refusals
      ensures Sound(plan) && old(steps) <= steps && store.journal == old(store).journal
      ensures ByIdentity(plan, steps, |old(steps)|, old(store))
      ensures store.owned == old(store).owned
      ensures Restored(plan, old(store)) ==> Restored(plan, store)
      ensures r.Denied? ==> r.reason.Refused?
      ensures r.Done? ==> Restored(plan, store)
      ensures Counted(old(refusals), refusals, r)
    {
      hide Safe, Restored, Undone, Recorded, Linked;
      var i := 0;
      while i < |plan|
        invariant 0 <= i <= |plan|
        invariant Sound(plan) && old(steps) <= steps && ByIdentity(plan, steps, |old(steps)|, old(store))
        invariant store.journal == old(store).journal && store.owned == old(store).owned
        invariant refusals == old(refusals)
        invariant Restored(plan, old(store)) ==> Restored(plan, store)
        invariant UndoneFrom(plan, store, 0)
        invariant forall m :: 0 <= m < i && plan[m].prior.Replaced? ==>
                                store.Links(plan[m].prior.inode) == {Target(plan[m].target)}
      {
        if plan[i].prior.Replaced? {
          UndoneRowIsInPlace(plan, store, plan[i]);
          OriginalsAreOwned(plan, store);
          r := ReleaseRetained(plan, plan[i], 0);
          if r.Denied? { return; }
        }
        i := i + 1;
      }
      AllUndoneIsRestored(plan, store);
      r := Done;
    }
  }

  /** The journal of a finished rollback. */
  predicate Finished(j: Journal) {
    j.state.RollbackComplete? && ReversePrefix(j.completed, j.ownership) && |j.completed| == |j.ownership|
  }

  /** The only two things that stop a rollback. */
  ghost predicate RollbackRefusal(reason: Reason, s: Store) {
    || reason.Refused?
    || exists e :: e in s.Entries() && reason == ForeignTemporary(e.target) && Squatted(e, s)
  }

  /** The residue check: no custody inode is left at its target or staging name. */
  predicate NoResidue(ownership: seq<Custody>, s: Store) {
    forall e :: e in ownership ==>
      !s.Is(Target(e.target), e.inode) && !s.Is(Temporary(e.temporary), e.inode)
  }

  lemma JournalIsAccepted(plan: seq<Row>, s: Store)
    requires Safe(plan, s) && s.journal.Some?
    ensures JournalShape(plan, s.journal.value)
  {
  }

  lemma UndoneLeavesNoResidue(plan: seq<Row>, s: Store)
    requires UndoneFrom(plan, s, 0)
    ensures NoResidue(s.Entries(), s)
  {
    forall e | e in s.Entries()
      ensures !s.Is(Target(e.target), e.inode) && !s.Is(Temporary(e.temporary), e.inode)
    {
      var k :| 0 <= k < |s.Entries()| && s.Entries()[k] == e;
      assert Undone(plan, s.Entries()[k], s);
      assert Target(e.target) !in s.Links(e.inode) && Temporary(e.temporary) !in s.Links(e.inode);
    }
  }

  lemma EverythingAheadIsUndone(plan: seq<Row>, s: Store)
    ensures UndoneFrom(plan, s, |s.Entries()|)
  {
  }

  lemma EntryHasItsRow(plan: seq<Row>, s: Store, k: nat)
    requires WellFormed(plan) && Safe(plan, s) && k < |s.Entries()|
    ensures exists r :: r in plan && r.target == s.Entries()[k].target
    ensures var row := RowOf(plan, s.Entries()[k].target);
            && row in plan && row.target == s.Entries()[k].target && !row.prior.Preserved?
            && ClaimOf(s.Entries(), row.target) == Some(s.Entries()[k])
            && forall m :: k + 1 <= m < |s.Entries()| ==> s.Entries()[m].target != row.target
    ensures s.Entries()[k] in s.Entries()
  {
    var own := s.Entries();
    EntriesAreOwned(plan, s, own[k]);
    RowOfTarget(plan, own[k].target);
    var r :| r in plan && !r.prior.Preserved? && r.target == own[k].target && RowSafe(r, Some(own[k]), s);
    SameTargetSameRow(plan, r, RowOf(plan, own[k].target));
    EntriesAreDistinct(plan, s);
    ClaimOfEntry(own, k);
  }

  lemma EntriesAreDistinct(plan: seq<Row>, s: Store)
    requires WellFormed(plan) && Safe(plan, s)
    ensures forall i, j :: 0 <= i < j < |s.Entries()| ==> s.Entries()[i].target != s.Entries()[j].target
  {
    OrderIsThePlacedRows(plan);
    var own := s.Entries();
  }

  lemma OneMoreUndone(plan: seq<Row>, s: Store, k: nat, row: Row)
    requires WellFormed(plan) && row in plan && k < |s.Entries()| && s.Entries()[k].target == row.target
    requires UndoneFrom(plan, s, k + 1) && s.Links(s.Entries()[k].inode) == {}
    requires row.prior.Replaced? ==> s.Links(row.prior.inode) == {Target(row.target)}
    ensures UndoneFrom(plan, s, k)
  {
  }

  lemma CompletionFollowsTheReverse(own: seq<Custody>, completed: seq<string>, k: nat)
    requires k < |own| && ReversePrefix(completed, own) && |completed| >= |own| - 1 - k
    requires forall i, j :: 0 <= i < j < |own| ==> own[i].target != own[j].target
    ensures own[k].target in completed <==> |completed| >= |own| - k
    ensures own[k].target !in completed ==> ReversePrefix(completed + [own[k].target], own)
  {
    if |completed| >= |own| - k {
      assert completed[|own| - 1 - k] == own[k].target;
    } else {
      forall p | 0 <= p < |completed| ensures completed[p] != own[k].target {
        assert completed[p] == own[|own| - 1 - p].target;
      }
    }
  }

  lemma UndoneRowIsInPlace(plan: seq<Row>, s: Store, row: Row)
    requires WellFormed(plan) && Safe(plan, s) && UndoneFrom(plan, s, 0) && row in plan && row.prior.Replaced?
    ensures s.Is(Target(row.target), row.prior.inode)
  {
    assert RowSafe(row, ClaimOf(s.Entries(), row.target), s);
    ClaimIsRecorded(s.Entries(), row.target);
    if ClaimOf(s.Entries(), row.target).Some? {
      var k :| 0 <= k < |s.Entries()| && s.Entries()[k] == ClaimOf(s.Entries(), row.target).value;
      assert Undone(plan, s.Entries()[k], s);
    }
    assert Target(row.target) in s.Links(row.prior.inode);
  }

  lemma OriginalsAreOwned(plan: seq<Row>, s: Store)
    requires Safe(plan, s)
    ensures forall r :: r in plan && r.prior.Replaced? ==> r.prior.inode in s.owned
  {
  }

  lemma AllUndoneIsRestored(plan: seq<Row>, s: Store)
    requires WellFormed(plan) && Safe(plan, s) && UndoneFrom(plan, s, 0)
    requires forall r :: r in plan && r.prior.Replaced? ==> s.Links(r.prior.inode) == {Target(r.target)}
    ensures Restored(plan, s)
  {
    forall e | e in s.Entries() ensures s.Links(e.inode) == {} {
      var k :| 0 <= k < |s.Entries()| && s.Entries()[k] == e;
      assert Undone(plan, s.Entries()[k], s);
    }
    forall r | r in plan ensures RowRestored(r, s) {
      ClaimIsRecorded(s.Entries(), r.target);
      assert RowSafe(r, ClaimOf(s.Entries(), r.target), s);
      if r.prior.Absent? {
        var claim := ClaimOf(s.Entries(), r.target);
        if claim.Some? { assert Target(r.target) !in s.Links(claim.value.inode); }
      } else {
        ObservedLinks(s, Target(r.target), r.prior.inode, r.prior.image);
      }
    }
  }

  /** Another actor took the staging name of a replaced row. */
  predicate Squatted(e: Custody, s: Store) {
    Temporary(e.temporary) in s.names && s.names[Temporary(e.temporary)] != e.inode
  }

  lemma TargetOfReplacedRow(plan: seq<Row>, s: Store, row: Row, e: Custody)
    requires WellFormed(plan) && Safe(plan, s) && row in plan && row.prior.Replaced?
    requires ClaimOf(s.Entries(), row.target) == Some(e)
    ensures s.Is(Target(row.target), row.prior.inode) || s.Is(Target(row.target), e.inode)
    ensures Backup(row, s)
  {
  }

  lemma StagedRowHolds(plan: seq<Row>, s: Store, row: Row, e: Custody)
    requires WellFormed(plan) && Safe(plan, s) && row in plan && row.prior.Replaced?
    requires ClaimOf(s.Entries(), row.target) == Some(e) && s.Is(Target(row.target), e.inode)
    ensures e.inode in s.files && s.files[e.inode] == row.image && Backup(row, s) && e.inode != row.prior.inode
    ensures Observed(s, Retained(row.target), row.prior.inode, row.prior.image, 1)
  {
    assert RowSafe(row, Some(e), s);
    assert Target(row.target) in s.Links(e.inode);
    ObservedLinks(s, Retained(row.target), row.prior.inode, row.prior.image);
    ClaimIsRecorded(s.Entries(), row.target);
  }

  lemma RemovalGoesForward(plan: seq<Row>, s: Store, row: Row, e: Custody, candidate: Name, k: nat)
    requires WellFormed(plan) && Safe(plan, s) && row in plan && row.prior.Absent?
    requires ClaimOf(s.Entries(), row.target) == Some(e) && s.Is(candidate, e.inode)
    requires candidate == Target(row.target) || candidate == Temporary(e.temporary)
    requires forall m :: k <= m < |s.Entries()| ==> s.Entries()[m].target != row.target
    ensures var t := s.Unlink(candidate);
            && Safe(plan, t) && Forward(plan, s, t, k) && Considerate(Step(s, t, false)) && !Restored(plan, s)
            && t.Links(e.inode) == s.Links(e.inode) - {candidate}
  {
    ClaimIsRecorded(s.Entries(), row.target);
    assert RowSafe(row, Some(e), s);
    var t := s.Unlink(candidate);
    UnbindLinks(s.names, candidate);
    assert candidate in s.Links(e.inode);
    if candidate.Target? {
      UnlinkTargetKeepsSafe(plan, s, row, e);
    } else {
      UnlinkTemporaryKeepsSafe(plan, s, candidate);
    }
    if UndoneFrom(plan, s, k) { OthersStayUndone(plan, s, t, k, row, e); }
  }

  lemma ReinstateGoesForward(plan: seq<Row>, s: Store, row: Row, e: Custody, k: nat)
    requires WellFormed(plan) && Safe(plan, s) && row in plan && row.prior.Replaced? && e in s.Entries()
    requires ClaimOf(s.Entries(), row.target) == Some(e) && s.Is(Target(row.target), e.inode)
    requires forall m :: k <= m < |s.Entries()| ==> s.Entries()[m].target != row.target
    ensures Retained(row.target) in s.names
    ensures var t := s.Move(Retained(row.target), Target(row.target));
            && Safe(plan, t) && Forward(plan, s, t, k) && Considerate(Step(s, t, false)) && !Restored(plan, s)
            && t.Links(row.prior.inode) == {Target(row.target)} && t.Links(e.inode) == {}
  {
    ReinstateKeepsSafe(plan, s, row, e);
    ClaimIsRecorded(s.Entries(), row.target);
    EntriesAreOwned(plan, s, e);
    var t := s.Move(Retained(row.target), Target(row.target));
    StagedIsNotRestored(plan, s, row, e);
    assert Retained(row.target) in s.Links(row.prior.inode);
    RenameLinks(s.names, Retained(row.target), Target(row.target));
    if UndoneFrom(plan, s, k) { OthersStayUndone(plan, s, t, k, row, e); }
  }

  lemma StagedIsNotRestored(plan: seq<Row>, s: Store, row: Row, e: Custody)
    requires e in s.Entries() && s.Is(Target(row.target), e.inode)
    ensures !Restored(plan, s)
  {
    assert Target(row.target) in s.Links(e.inode);
  }

  /** What a store that passed the checks of one replaced row looks like. */
  lemma RowIsPlacedOrHeld(plan: seq<Row>, s: Store, row: Row)
    requires WellFormed(plan) && Safe(plan, s) && row in plan && row.prior.Replaced?
    requires s.Is(Target(row.target), row.prior.inode)
    ensures if Retained(row.target) in s.names
            then s.Links(row.prior.inode) == {Target(row.target), Retained(row.target)}
                 && Observed(s, Retained(row.target), row.prior.inode, row.prior.image, 2)
            else s.Links(row.prior.inode) == {Target(row.target)}
                 && Observed(s, Target(row.target), row.prior.inode, row.prior.image, 1)
  {
  }

  lemma InterferenceKeepsAllLinks(s: Store, t: Store)
    requires Interference(s, t)
    ensures forall j :: j in s.owned ==> t.Links(j) == s.Links(j)
  {
  }

  lemma ReleaseGoesForward(plan: seq<Row>, s: Store, t: Store, k: nat, row: Row)
    requires WellFormed(plan) && Safe(plan, s) && Safe(plan, t) && row in plan && row.prior.Replaced?
    requires Retained(row.target) in s.names && t == s.Unlink(Retained(row.target))
    requires t.Links(row.prior.inode) == {Target(row.target)}
    requires s.Links(row.prior.inode) == {Target(row.target), Retained(row.target)}
    ensures Forward(plan, s, t, k) && !Restored(plan, s) && Considerate(Step(s, t, false))
  {
    UnbindLinks(s.names, Retained(row.target));
    assert Retained(row.target) in s.Links(row.prior.inode);
    if Restored(plan, s) {
      assert RowRestored(row, s);
      ObservedLinks(s, Target(row.target), row.prior.inode, row.prior.image);
      assert false;
    }
    if UndoneFrom(plan, s, k) {
      forall m | k <= m < |t.Entries()| ensures Undone(plan, t.Entries()[m], t) {
        var f := s.Entries()[m];
        assert Undone(plan, f, s);
        EntriesAreOwned(plan, s, f);
        forall q | q in plan && q.target == f.target && q.prior.Replaced?
          ensures t.Links(q.prior.inode) == {Target(q.target)}
        {
          if q.target == row.target { SameTargetSameRow(plan, q, row); }
        }
      }
    }
  }

  /** Nothing that rollback achieved is lost, and custody and its history stay. */
  ghost predicate Forward(plan: seq<Row>, s: Store, t: Store, k: nat) {
    && t.Entries() == s.Entries() && t.owned == s.owned
    && (Restored(plan, s) ==> Restored(plan, t))
    && (UndoneFrom(plan, s, k) ==> UndoneFrom(plan, t, k))
  }

  /** Other actors undo nothing of it either. */
  lemma InterferenceGoesForward(plan: seq<Row>, s: Store, t: Store, k: nat)
    requires WellFormed(plan) && Safe(plan, s) && Interference(s, t)
    ensures Forward(plan, s, t, k)
  {
    hide Safe, WellFormed, Restored, Interference;
    if Restored(plan, s) { InterferenceKeepsRestored(plan, s, t); }
    InterferenceKeepsEntries(s, t);
    if UndoneFrom(plan, s, k) {
      forall m | k <= m < |t.Entries()| ensures Undone(plan, t.Entries()[m], t) {
        var e := s.Entries()[m];
        assert Undone(plan, e, s) && e in s.Entries();
        EntriesAreOwned(plan, s, e);
        InterferenceKeepsAllLinks(s, t);
        OriginalsAreOwned(plan, s);
      }
    }
  }

  lemma InterferenceKeepsEntries(s: Store, t: Store)
    requires Interference(s, t)
    ensures t.Entries() == s.Entries() && t.owned == s.owned
  {
  }

  lemma RecordKeepsProgress(plan: seq<Row>, s: Store, j: Journal, k: nat)
    requires Safe(plan, s) && Safe(plan, s.Record(j)) && j.ownership == s.Entries()
    ensures Forward(plan, s, s.Record(j), k)
  {
    var t := s.Record(j);
    if Restored(plan, s) {
      forall q | q in plan ensures RowRestored(q, t) { assert RowRestored(q, s); }
    }
    if UndoneFrom(plan, s, k) {
      forall m | k <= m < |t.Entries()| ensures Undone(plan, t.Entries()[m], t) {
        assert Undone(plan, s.Entries()[m], s);
      }
    }
  }
}
