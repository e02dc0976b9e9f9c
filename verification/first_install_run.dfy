/** install from its captured prestate to a sealed journal, and what it leaves when it fails. */
module FirstInstallRun {
  import opened Wrappers
  import opened FileWorld
  import opened FirstInstall
  import opened FirstInstallTransaction
  import opened FirstInstallPlacement

  // ----- the order of placement

  function OfBranch(rows: seq<Row>, b: Branch): seq<Row> {
    if rows == [] then [] else (if rows[0].branch == b then [rows[0]] else []) + OfBranch(rows[1..], b)
  }

  /** validate returns the payload rows grouped by branch. */
  function InBranchOrder(rows: seq<Row>): seq<Row> {
    OfBranch(rows, Authority) + OfBranch(rows, Operations) + OfBranch(rows, Interface)
  }

  /** The receipt lists the generated files, then the payload. */
  function Receipt(generated: seq<Row>, payload: seq<Row>): seq<Row> {
    generated + InBranchOrder(payload)
  }

  lemma {:induction false} OfBranchConcat(a: seq<Row>, c: seq<Row>, b: Branch)
    ensures OfBranch(a + c, b) == OfBranch(a, b) + OfBranch(c, b)
  {
    if a == [] {
      assert a + c == c;
    } else {
      var head, rest := if a[0].branch == b then [a[0]] else [], a[1..];
      assert (a + c)[0] == a[0] && (a + c)[1..] == rest + c;
      OfBranchConcat(rest, c, b);
      assert head + (OfBranch(rest, b) + OfBranch(c, b)) == (head + OfBranch(rest, b)) + OfBranch(c, b);
    }
  }

  lemma {:induction false} OfBranchTwice(rows: seq<Row>, b: Branch, c: Branch)
    ensures OfBranch(OfBranch(rows, b), c) == if b == c then OfBranch(rows, b) else []
  {
    if rows != [] {
      OfBranchTwice(rows[1..], b, c);
      OfBranchConcat(if rows[0].branch == b then [rows[0]] else [], OfBranch(rows[1..], b), c);
    }
  }

  /** Selecting a branch from the grouped rows gives back that group. */
  lemma GroupOfGrouped(payload: seq<Row>, b: Branch)
    ensures OfBranch(InBranchOrder(payload), b) == OfBranch(payload, b)
  {
    var x, y, z := OfBranch(payload, Authority), OfBranch(payload, Operations), OfBranch(payload, Interface);
    OfBranchConcat(x + y, z, b);
    OfBranchConcat(x, y, b);
    OfBranchTwice(payload, Authority, b);
    OfBranchTwice(payload, Operations, b);
    OfBranchTwice(payload, Interface, b);
  }

  lemma {:induction false} InstallOrderConcat(a: seq<Row>, c: seq<Row>)
    ensures InstallOrder(a + c) == InstallOrder(a) + InstallOrder(c)
  {
    if a == [] {
      assert a + c == c;
    } else {
      assert (a + c)[1..] == a[1..] + c;
      InstallOrderConcat(a[1..], c);
    }
  }

  /** Placing branch by branch, generated files first, is placing in receipt order. */
  method PlacementOrder(generated: seq<Row>, rows: seq<Row>, ghost payload: seq<Row>) returns (order: seq<Row>)
    requires rows == InBranchOrder(payload)
    ensures order == InstallOrder(Receipt(generated, payload))
  {
    order := PlaceableOf(generated);
    var authority := BranchPlaceable(rows, Authority);
    var operations := BranchPlaceable(rows, Operations);
    var interface := BranchPlaceable(rows, Interface);
    order := order + authority + operations + interface;
    GroupOfGrouped(payload, Authority);
    GroupOfGrouped(payload, Operations);
    GroupOfGrouped(payload, Interface);
    var x, y, z := OfBranch(payload, Authority), OfBranch(payload, Operations), OfBranch(payload, Interface);
    InstallOrderConcat(generated, x + y + z);
    InstallOrderConcat(x + y, z);
    InstallOrderConcat(x, y);
  }

  /** The loop over the generated files. */
  method PlaceableOf(rows: seq<Row>) returns (order: seq<Row>)
    ensures order == InstallOrder(rows)
  {
    order := [];
    for k := 0 to |rows|
      invariant order == InstallOrder(rows[..k])
    {
      if !rows[k].prior.Preserved? { order := order + [rows[k]]; }
      assert rows[..k + 1] == rows[..k] + [rows[k]];
      InstallOrderConcat(rows[..k], [rows[k]]);
    }
    assert rows[..|rows|] == rows;
  }

  /** The inner loop for one branch. */
  method BranchPlaceable(rows: seq<Row>, b: Branch) returns (order: seq<Row>)
    ensures order == InstallOrder(OfBranch(rows, b))
  {
    order := [];
    for k := 0 to |rows|
      invariant order == InstallOrder(OfBranch(rows[..k], b))
    {
      if rows[k].branch == b && !rows[k].prior.Preserved? { order := order + [rows[k]]; }
      assert rows[..k + 1] == rows[..k] + [rows[k]];
      OfBranchConcat(rows[..k], [rows[k]], b);
      InstallOrderConcat(OfBranch(rows[..k], b), OfBranch([rows[k]], b));
    }
    assert rows[..|rows|] == rows;
  }

  // ----- the run

  /** Installed; Abandoned before any row was placed; RolledBack; or Unresolved, where the rollback
      itself was stopped and can be run again. */
  datatype Result =
    | Installed
    | Abandoned(cause: Reason, cleaned: bool)
    | RolledBack(cause: Reason)
    | Unresolved(cause: Reason, stop: Reason)

  /** What can make an installation fail. */
  ghost predicate InstallRefusal(plan: seq<Row>, reason: Reason) {
    reason.Refused? || exists r :: r in plan && r.prior.Absent? && reason == TargetOccupied(r.target)
  }

  /** The written targets are a prefix of the order. */
  predicate Follows(written: seq<string>, order: seq<Row>) {
    |written| <= |order| && forall m :: 0 <= m < |written| ==> written[m] == order[m].target
  }

  lemma NextRow(plan: seq<Row>, written: seq<string>)
    requires WellFormed(plan) && Follows(written, InstallOrder(plan)) && |written| < |InstallOrder(plan)|
    ensures var row := InstallOrder(plan)[|written|];
            && row in plan && !row.prior.Preserved? && row.target !in written
            && Follows(written + [row.target], InstallOrder(plan))
  {
    OrderIsThePlacedRows(plan);
    assert InstallOrder(plan)[|written|] in InstallOrder(plan);
  }

  /** Every row in order. */
  method PlaceAll(tx: Transaction, plan: seq<Row>, order: seq<Row>)
    returns (r: Outcome, written: seq<string>, ownership: seq<Custody>)
    requires tx.Sound(plan) && order == InstallOrder(plan)
    requires tx.store.journal == Some(Journal(Installing, [], [])) && Ready(plan, tx.store, [], None)
    modifies tx`store, tx`steps, tx`refusals
    ensures tx.Sound(plan) && old(tx.steps) <= tx.steps && tx.store.journal.Some?
    ensures r.Denied? ==> InstallRefusal(plan, r.reason)
    ensures r.Done? ==> tx.store.Entries() == ownership && Ready(plan, tx.store, written, None)
    ensures r.Done? ==> Prefix(written, ownership) && |written| == |ownership| == |order|
    ensures Counted(old(tx.refusals), tx.refusals, r)
  {
    assert Prefix([], []);
    hide Recorded, Linked, Safe, WellFormed, Ready, InstallOrder, Prefix;
    written, ownership := [], [];
    var k := 0;
    while k < |order|
      invariant 0 <= k <= |order| && |written| == |ownership| == k && Prefix(written, ownership)
      invariant Follows(written, order)
      invariant tx.Sound(plan) && old(tx.steps) <= tx.steps && tx.refusals == old(tx.refusals)
      invariant tx.store.journal == Some(Journal(Installing, written, ownership))
      invariant Ready(plan, tx.store, written, None)
    {
      NextRow(plan, written);
      r, ownership := Place(tx, plan, order[k], written, ownership);
      if r.Denied? { return; }
      written := written + [order[k].target];
      k := k + 1;
    }
    r := Done;
  }

  /** The closing `exact` loop and the completion record. */
  method Close(tx: Transaction, plan: seq<Row>, written: seq<string>, ownership: seq<Custody>) returns (r: Outcome)
    requires tx.Sound(plan) && tx.store.journal.Some? && tx.store.Entries() == ownership
    requires Ready(plan, tx.store, written, None)
    requires Prefix(written, ownership) && |written| == |ownership| == |InstallOrder(plan)|
    modifies tx`store, tx`steps, tx`refusals
    ensures tx.Sound(plan) && old(tx.steps) <= tx.steps && tx.store.journal.Some?
    ensures r.Denied? ==> r.reason.Refused?
    ensures r.Done? ==> MaterialVerified(plan, tx.store)
    ensures Counted(old(tx.refusals), tx.refusals, r)
  {
    hide Recorded, Linked, Safe, WellFormed, Ready, PreservedUnchanged, MaterialVerified, HoldsImage;
    ReadyIsUnchanged(plan, tx.store, written);
    if !PreservedUnchanged(plan, tx.store, written) { return Denied(CustodyChanged); }
    AllRowsHoldTheirImages(plan, tx.store, written);
    if !forall row :: row in plan ==> HoldsImage(row, tx.store) { return Denied(CustodyChanged); }
    r := Seal(tx, plan, InstalledInactive, written, ownership);
    if r.Denied? { return; }
    ReadyIsUnchanged(plan, tx.store, written);
    if !PreservedUnchanged(plan, tx.store, written) { return Denied(CustodyChanged); }
    SealedIsVerified(plan, tx.store);
  }

  lemma AllRowsHoldTheirImages(plan: seq<Row>, s: Store, written: seq<string>)
    requires WellFormed(plan) && Safe(plan, s) && s.journal.Some? && Ready(plan, s, written, None)
    requires Prefix(written, s.Entries()) && |written| == |s.Entries()| == |InstallOrder(plan)|
    ensures forall row :: row in plan ==> HoldsImage(row, s)
  {
    var sealed := s.Record(Journal(InstalledInactive, written, s.Entries()));
    ProgressKeepsSafe(plan, s, sealed.journal.value);
    RecordKeepsReady(plan, s, sealed.journal.value, written);
    SealedIsVerified(plan, sealed);
  }

  method Install(tx: Transaction, generated: seq<Row>, payload: seq<Row>) returns (result: Result)
    requires var plan := Receipt(generated, payload); tx.Sound(plan) && Captured(plan, tx.store)
    modifies tx
    ensures var plan := Receipt(generated, payload);
            && tx.Sound(plan) && old(tx.steps) <= tx.steps
            && match result
               case Installed => MaterialVerified(plan, tx.store)
               case Abandoned(cause, cleaned) =>
                 cause.Refused? && (cleaned ==> Restored(plan, tx.store) && Captured(plan, tx.store))
               case RolledBack(cause) =>
                 && InstallRefusal(plan, cause) && Restored(plan, tx.store)
                 && tx.store.journal.Some? && Finished(tx.store.journal.value)
               case Unresolved(cause, stop) =>
                 InstallRefusal(plan, cause) && RollbackRefusal(stop, tx.store) && tx.store.journal.Some?
    ensures tx.rollbacks == old(tx.rollbacks) + if result.RolledBack? || result.Unresolved? then 1 else 0
    ensures tx.refusals == old(tx.refusals) ==>
              match result
              case Installed => true
              case Abandoned(_, _) => false
              case RolledBack(cause) => cause.TargetOccupied?
              case Unresolved(cause, stop) => cause.TargetOccupied? && !stop.Refused?
  {
    var rows := InBranchOrder(payload);
    var plan := generated + rows;
    hide Recorded, Linked, Safe, WellFormed, Ready, MaterialVerified, Restored, RollbackRefusal;
    var r := Prepare(tx, plan);
    if r.Denied? {
      var cleaned := CleanUp(tx, plan);
      return Abandoned(r.reason, cleaned);
    }
    var order := PlacementOrder(generated, rows, payload);
    var written, ownership;
    r, written, ownership := PlaceAll(tx, plan, order);
    if r.Done? {
      r := Close(tx, plan, written, ownership);
    }
    if r.Done? { return Installed; }
    var undone := tx.Rollback(plan);
    result := if undone.Done? then RolledBack(r.reason) else Unresolved(r.reason, undone.reason);
  }

  /** The handler of a failed preparation: drop the second links, the copies and the journal. */
  method CleanUp(tx: Transaction, plan: seq<Row>) returns (cleaned: bool)
    requires tx.Sound(plan) && tx.store.Entries() == []
    modifies tx`store, tx`steps, tx`refusals
    ensures tx.Sound(plan) && old(tx.steps) <= tx.steps
    ensures cleaned ==> Restored(plan, tx.store) && Captured(plan, tx.store)
    ensures if cleaned then tx.refusals == old(tx.refusals) else tx.refusals > old(tx.refusals)
  {
    hide Recorded, Linked, Safe, WellFormed, Restored, Interference, Forward;
    var r := tx.ReleaseAll(plan);
    if r.Denied? { return false; }
    var i := 0;
    while i < |plan|
      invariant 0 <= i <= |plan| && tx.Sound(plan) && old(tx.steps) <= tx.steps && tx.store.Entries() == []
      invariant Restored(plan, tx.store) && tx.refusals == old(tx.refusals)
      invariant forall m :: 0 <= m < i && plan[m].prior.Replaced? ==> Preimage(plan[m].target) !in tx.store.names
    {
      ghost var s := tx.store;
      var ok := tx.Pause(plan, 0);
      InterferenceAddsNoCopy(s, tx.store);
      InterferenceKeepsRestored(plan, s, tx.store);
      if !ok { return false; }
      if plan[i].prior.Replaced? && Preimage(plan[i].target) in tx.store.names {
        CopyIsExact(plan, tx.store, plan[i]);
        if !Backup(plan[i], tx.store) { return false; }
        DropCopyKeepsRestored(plan, tx.store, Preimage(plan[i].target));
        tx.Perform(plan, tx.store.Unlink(Preimage(plan[i].target)), false);
      }
      i := i + 1;
    }
    DropJournalKeepsRestored(plan, tx.store);
    tx.Perform(plan, tx.store.(journal := None), false);
    NothingPrivateIsCaptured(plan, tx.store);
    cleaned := true;
  }

  lemma InterferenceAddsNoCopy(s: Store, t: Store)
    requires Interference(s, t)
    ensures forall n :: n in t.names && Private(n) ==> n in s.names
    ensures t.Entries() == s.Entries()
  {
  }

  /** The copy's `exact` check never fails. */
  lemma CopyIsExact(plan: seq<Row>, s: Store, row: Row)
    requires WellFormed(plan) && Safe(plan, s) && row in plan && Preimage(row.target) in s.names
    ensures row.prior.Replaced? && Backup(row, s)
  {
    var r :| r in plan && BelongsTo(Preimage(row.target), r, s);
    SameTargetSameRow(plan, r, row);
  }

  lemma PrivateNamesHaveRows(plan: seq<Row>, s: Store)
    requires Safe(plan, s)
    ensures forall n :: n in s.names && Private(n) ==> exists r :: r in plan && r.prior.Replaced? && r.target == n.path
  {
    forall n | n in s.names && Private(n) ensures exists r :: r in plan && r.prior.Replaced? && r.target == n.path {
      var r :| r in plan && BelongsTo(n, r, s);
    }
  }

  /** With all copies gone nothing private is left: `rmdir` finds the directory empty. */
  lemma NothingPrivateIsCaptured(plan: seq<Row>, s: Store)
    requires WellFormed(plan) && Restored(plan, s) && s.journal.None?
    requires forall r :: r in plan && r.prior.Replaced? ==> Preimage(r.target) !in s.names
    ensures Captured(plan, s)
  {
    forall r | r in plan && r.prior.Replaced?
      ensures s.Links(r.prior.inode) == {Target(r.target)} && Retained(r.target) !in s.names
    {
      assert RowRestored(r, s) && RowSafe(r, None, s);
      ObservedLinks(s, Target(r.target), r.prior.inode, r.prior.image);
      var o := r.prior.inode;
      assert s.Is(Retained(r.target), o) ==> Retained(r.target) in s.Links(o);
    }
    assert forall n :: n in s.names && Private(n) ==> n.Preimage? || n.Retained?;
    PrivateNamesHaveRows(plan, s);
  }

  /** With no custody recorded, the private copies and the journal itself can go. */
  lemma DropCopyKeepsRestored(plan: seq<Row>, s: Store, n: Name)
    requires WellFormed(plan) && Restored(plan, s) && s.Entries() == [] && n in s.names && n.Preimage?
    ensures Restored(plan, s.Unlink(n)) && Considerate(Step(s, s.Unlink(n), false))
  {
    var t := s.Unlink(n);
    UnbindLinks(s.names, n);
    forall r | r in plan ensures RowRestored(r, t) && RowSafe(r, None, t) {
      assert RowRestored(r, s) && RowSafe(r, None, s);
      if !r.prior.Absent? { ObservedLinks(s, Target(r.target), r.prior.inode, r.prior.image); }
    }
  }

  lemma DropJournalKeepsRestored(plan: seq<Row>, s: Store)
    requires Restored(plan, s) && s.Entries() == []
    ensures Restored(plan, s.(journal := None)) && Considerate(Step(s, s.(journal := None), false))
  {
  }
}
