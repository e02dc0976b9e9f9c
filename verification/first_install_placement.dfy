/** install: retain the originals, then place every row write-ahead, then seal the journal. */
module FirstInstallPlacement {
  import opened Wrappers
  import opened FileWorld
  import opened FirstInstall
  import opened FirstInstallTransaction

  // ----- what placement relies on between rows

  /** A row that is placed, or that is ready to be placed. */
  ghost predicate RowReady(r: Row, claim: Option<Custody>, s: Store, placed: bool) {
    match r.prior
    case Preserved(_, _) => true
    case Absent => placed ==> claim.Some? && s.Links(claim.value.inode) == {Target(r.target)}
    case Replaced(o, _) =>
      if placed then
        claim.Some? && s.Links(o) == {Retained(r.target)} && s.Links(claim.value.inode) == {Target(r.target)}
      else
        Backup(r, s) && s.Links(o) == {Target(r.target), Retained(r.target)}
  }

  ghost predicate Ready(plan: seq<Row>, s: Store, written: seq<string>, current: Option<string>) {
    forall r :: r in plan && current != Some(r.target) ==>
                  RowReady(r, ClaimOf(s.Entries(), r.target), s, r.target in written)
  }

  /** Before the transaction: the captured prestate, and an empty private directory. */
  ghost predicate Captured(plan: seq<Row>, s: Store) {
    && WellFormed(plan) && Safe(plan, s) && s.journal.None?
    && (forall n :: n in s.names ==> !Private(n))
    && (forall r :: r in plan && r.prior.Replaced? ==> s.Links(r.prior.inode) == {Target(r.target)})
  }

  /** preserved_unchanged: preserved targets and retained originals still are what was captured,
      written replacements still are the inodes in custody. */
  predicate PreservedUnchanged(plan: seq<Row>, s: Store, written: seq<string>) {
    forall r :: r in plan ==>
      match r.prior
      case Absent => true
      case Preserved(o, image) => Observed(s, Target(r.target), o, image, 1)
      case Replaced(o, image) =>
        if r.target !in written then
          if Retained(r.target) in s.names
          then Observed(s, Retained(r.target), o, image, 2) && Observed(s, Target(r.target), o, image, 2)
          else Observed(s, Target(r.target), o, image, 1)
        else
          ClaimOf(s.Entries(), r.target).Some? &&
          Observed(s, Target(r.target), ClaimOf(s.Entries(), r.target).value.inode, r.image, 1)
  }

  /** The checks of a finished installation: every target, every retained original, the journal. */
  predicate MaterialVerified(plan: seq<Row>, s: Store) {
    && (forall r :: r in plan ==>
          match r.prior
          case Preserved(o, image) => Observed(s, Target(r.target), o, image, 1) && image == r.image
          case Absent => HoldsImage(r, s)
          case Replaced(o, image) =>
            && HoldsImage(r, s) && Observed(s, Retained(r.target), o, image, 1)
            && Preimage(r.target) in s.names
            && Observed(s, Preimage(r.target), s.names[Preimage(r.target)], image.(mode := OWNER_ONLY), 1))
    && s.journal.Some? && s.journal.value.state.InstalledInactive?
    && |s.journal.value.completed| == |InstallOrder(plan)|
    && forall k :: 0 <= k < |InstallOrder(plan)| ==> s.journal.value.completed[k] == InstallOrder(plan)[k].target
  }

  predicate HoldsImage(r: Row, s: Store) {
    Target(r.target) in s.names && Observed(s, Target(r.target), s.names[Target(r.target)], r.image, 1)
  }

  /** The check never fails while the transaction's own inodes are left alone. */
  lemma PreservedUnchangedHolds(plan: seq<Row>, s: Store, written: seq<string>)
    requires WellFormed(plan) && Safe(plan, s)
    requires forall r :: r in plan && r.prior.Replaced? ==>
               if r.target in written then RowReady(r, ClaimOf(s.Entries(), r.target), s, true)
               else s.Is(Target(r.target), r.prior.inode)
    ensures PreservedUnchanged(plan, s, written)
  {
    forall r | r in plan && r.prior.Replaced? && r.target !in written
      ensures if Retained(r.target) in s.names
              then Observed(s, Retained(r.target), r.prior.inode, r.prior.image, 2)
                   && Observed(s, Target(r.target), r.prior.inode, r.prior.image, 2)
              else Observed(s, Target(r.target), r.prior.inode, r.prior.image, 1)
    {
      RowIsPlacedOrHeld(plan, s, r);
      ObservedLinks(s, Target(r.target), r.prior.inode, r.prior.image);
    }
    forall r | r in plan && (r.prior.Preserved? || (r.target in written && r.prior.Replaced?))
      ensures r.prior.Preserved? ==> Observed(s, Target(r.target), r.prior.inode, r.prior.image, 1)
      ensures r.prior.Replaced? ==>
                ClaimOf(s.Entries(), r.target).Some? &&
                Observed(s, Target(r.target), ClaimOf(s.Entries(), r.target).value.inode, r.image, 1)
    {
      assert RowSafe(r, ClaimOf(s.Entries(), r.target), s);
      if r.prior.Preserved? {
        ObservedLinks(s, Target(r.target), r.prior.inode, r.prior.image);
      } else {
        ObservedLinks(s, Target(r.target), ClaimOf(s.Entries(), r.target).value.inode, r.image);
      }
    }
  }

  lemma ReadyIsUnchanged(plan: seq<Row>, s: Store, written: seq<string>)
    requires WellFormed(plan) && Safe(plan, s) && Ready(plan, s, written, None)
    ensures PreservedUnchanged(plan, s, written)
  {
  }

  /** A sealed, ready store is what the installation checks accept. */
  lemma SealedIsVerified(plan: seq<Row>, s: Store)
    requires WellFormed(plan) && Safe(plan, s)
    requires s.journal.Some? && s.journal.value.state.InstalledInactive?
    requires Ready(plan, s, s.journal.value.completed, None)
    ensures MaterialVerified(plan, s)
  {
    OrderIsThePlacedRows(plan);
    var j := s.journal.value;
    var order := InstallOrder(plan);
    forall r | r in plan && !r.prior.Preserved?
      ensures HoldsImage(r, s)
      ensures r.prior.Replaced? ==>
                && Observed(s, Retained(r.target), r.prior.inode, r.prior.image, 1)
                && Preimage(r.target) in s.names
                && Observed(s, Preimage(r.target), s.names[Preimage(r.target)], r.prior.image.(mode := OWNER_ONLY), 1)
    {
      var k :| 0 <= k < |order| && order[k] == r;
      assert j.completed[k] == r.target;
      var claim := ClaimOf(s.Entries(), r.target);
      assert RowReady(r, claim, s, true) && RowSafe(r, claim, s);
      ObservedLinks(s, Target(r.target), claim.value.inode, r.image);
      if r.prior.Replaced? {
        ObservedLinks(s, Retained(r.target), r.prior.inode, r.prior.image);
        CopyHasOneLink(plan, s, r);
      }
    }
    forall r | r in plan && r.prior.Preserved? ensures Observed(s, Target(r.target), r.prior.inode, r.prior.image, 1) {
      assert RowSafe(r, ClaimOf(s.Entries(), r.target), s);
      ObservedLinks(s, Target(r.target), r.prior.inode, r.prior.image);
    }
  }

  lemma CopyHasOneLink(plan: seq<Row>, s: Store, r: Row)
    requires Safe(plan, s) && r.prior.Replaced? && Backup(r, s)
    ensures var copy := s.names[Preimage(r.target)];
            Observed(s, Preimage(r.target), copy, r.prior.image.(mode := OWNER_ONLY), 1)
  {
    var copy := s.names[Preimage(r.target)];
    assert s.Links(copy) == {Preimage(r.target)};
    ObservedLinks(s, Preimage(r.target), copy, r.prior.image.(mode := OWNER_ONLY));
  }

  // ----- readiness through the operations

  /** Rows other than `current` stay ready when only the inodes in `moved` changed links. */
  lemma ReadyUntouched(plan: seq<Row>, s: Store, t: Store, written: seq<string>, current: Option<string>,
                       moved: set<Inode>)
    requires Ready(plan, s, written, current)
    requires forall j :: j !in moved ==> t.Links(j) == s.Links(j)
    requires forall r :: r in plan && current != Some(r.target) ==>
               && ClaimOf(t.Entries(), r.target) == ClaimOf(s.Entries(), r.target)
               && (!r.prior.Absent? ==> r.prior.inode !in moved)
               && (ClaimOf(s.Entries(), r.target).Some? ==> ClaimOf(s.Entries(), r.target).value.inode !in moved)
    requires forall r :: r in plan && r.prior.Replaced? && Backup(r, s) ==> Backup(r, t)
    ensures Ready(plan, t, written, current)
  {
  }

  lemma InterferenceKeepsReady(plan: seq<Row>, s: Store, t: Store, written: seq<string>, current: Option<string>)
    requires WellFormed(plan) && Safe(plan, s) && Interference(s, t) && Ready(plan, s, written, current)
    ensures Ready(plan, t, written, current)
  {
    forall r | r in plan && current != Some(r.target)
      ensures RowReady(r, ClaimOf(t.Entries(), r.target), t, r.target in written)
    {
      var claim := ClaimOf(s.Entries(), r.target);
      assert RowReady(r, claim, s, r.target in written) && RowSafe(r, claim, s);
      if !r.prior.Absent? { InterferenceKeepsLinks(s, t, r.prior.inode); }
      if claim.Some? && ClaimHolds(r, claim.value, s) { InterferenceKeepsLinks(s, t, claim.value.inode); }
    }
  }

  /** A boundary during placement. */
  method PauseReady(tx: Transaction, plan: seq<Row>, ghost written: seq<string>, ghost current: Option<string>)
    returns (ok: bool)
    requires tx.Sound(plan) && Ready(plan, tx.store, written, current)
    modifies tx`store, tx`refusals
    ensures tx.Sound(plan) && Interference(old(tx.store), tx.store) && Ready(plan, tx.store, written, current)
    ensures tx.refusals == if ok then old(tx.refusals) else old(tx.refusals) + 1
  {
    hide RowReady, Recorded, Linked, Safe, WellFormed;
    ok := tx.Pause(plan, 0);
    InterferenceKeepsReady(plan, old(tx.store), tx.store, written, current);
  }

  /** atomic, first half: stage the inode under a fresh name and record its custody write-ahead. */
  method Stage(tx: Transaction, plan: seq<Row>, row: Row, written: seq<string>, ownership: seq<Custody>)
    returns (r: Outcome, staged: Option<nat>, e: Custody)
    requires tx.Sound(plan) && tx.store.journal == Some(Journal(Installing, written, ownership))
    requires Prefix(written, ownership) && |written| == |ownership| < |InstallOrder(plan)|
    requires row == InstallOrder(plan)[|ownership|] && row in plan && row.target !in written
    requires Ready(plan, tx.store, written, None)
    modifies tx`store, tx`steps, tx`refusals
    ensures tx.Sound(plan) && old(tx.steps) <= tx.steps && tx.store.journal.Some?
    ensures Ready(plan, tx.store, written, None)
    ensures r.Denied? ==> r.reason.Refused?
    ensures r.Done? ==> staged == Some(e.temporary) && e.target == row.target
    ensures staged.Some? ==> OwnStaging(tx.store, staged.value)
    ensures r.Done? ==> tx.store.journal == Some(Journal(Installing, written, ownership + [e]))
    ensures r.Done? ==> ClaimOf(ownership + [e], row.target) == Some(e)
    ensures r.Done? ==> tx.store.Links(e.inode) == {Temporary(e.temporary)}
    ensures Counted(old(tx.refusals), tx.refusals, r)
  {
    hide Ready, RowReady, Recorded, Linked, Safe, WellFormed, Considerate, Prefix, InstallOrder;
    var nonce: nat := *;
    var inode: nat := *;
    e := Custody(row.target, inode, nonce);
    var ok := PauseReady(tx, plan, written, None);
    if !ok { return Denied(Refused), None, e; }
    if Temporary(nonce) in tx.store.names || inode in tx.store.files {
      r := tx.RefuseCreation(Temporary(nonce), inode);
      return r, None, e;
    }
    StagingKeepsReady(plan, tx.store, Temporary(nonce), inode, row.image, written);
    tx.Perform(plan, tx.store.Create(Temporary(nonce), inode, row.image), false);
    staged := Some(nonce);
    ghost var s := tx.store;
    ok := PauseReady(tx, plan, written, None);
    InterferenceKeepsLinks(s, tx.store, inode);
    if !ok { return Denied(Refused), staged, e; }
    IntentKeepsReady(plan, tx.store, row, e, written);
    tx.Perform(plan, tx.store.Record(Journal(Installing, written, ownership + [e])), false);
    s := tx.store;
    ok := PauseReady(tx, plan, written, None);
    InterferenceKeepsLinks(s, tx.store, inode);
    r := if ok then Done else Denied(Refused);
  }

  /** The staging name still is a link of an inode of the transaction. */
  predicate OwnStaging(s: Store, nonce: nat) {
    Temporary(nonce) in s.names && s.names[Temporary(nonce)] in s.owned
  }

  lemma StagingKeepsReady(plan: seq<Row>, s: Store, n: Name, i: Inode, image: Image, written: seq<string>)
    requires WellFormed(plan) && Safe(plan, s) && i !in s.files && n !in s.names && n.Temporary?
    requires Ready(plan, s, written, None)
    ensures var t := s.Create(n, i, image);
            && Safe(plan, t) && Ready(plan, t, written, None) && t.Links(i) == {n} && NewInode(plan, i, t)
            && Considerate(Step(s, t, false))
  {
    CreateKeepsSafe(plan, s, n, i, image);
    FreshInodeIsNew(plan, s, i);
    hide Safe, RowReady;
    BindLinks(s.names, n, i);
    ReadyUntouched(plan, s, s.Create(n, i, image), written, None, {i});
  }

  lemma FreshInodeIsNew(plan: seq<Row>, s: Store, i: Inode)
    requires WellFormed(plan) && Safe(plan, s) && i !in s.files
    ensures forall r :: r in plan && !r.prior.Absent? ==> r.prior.inode != i
    ensures forall f :: f in s.Entries() ==> f.inode != i
    ensures forall r :: r in plan && ClaimOf(s.Entries(), r.target).Some? ==>
                          ClaimOf(s.Entries(), r.target).value.inode != i
  {
    forall f | f in s.Entries() ensures f.inode != i { EntriesAreOwned(plan, s, f); }
    forall r | r in plan && ClaimOf(s.Entries(), r.target).Some?
      ensures ClaimOf(s.Entries(), r.target).value.inode != i
    {
      ClaimIsRecorded(s.Entries(), r.target);
    }
  }

  /** An inode of the transaction that no row holds yet. */
  ghost predicate NewInode(plan: seq<Row>, i: Inode, s: Store) {
    && i in s.owned
    && (forall r :: r in plan && !r.prior.Absent? ==> r.prior.inode != i)
    && (forall f :: f in s.Entries() ==> f.inode != i)
  }

  lemma IntentKeepsReady(plan: seq<Row>, s: Store, row: Row, e: Custody, written: seq<string>)
    requires WellFormed(plan) && Safe(plan, s) && Ready(plan, s, written, None)
    requires s.journal.Some? && Prefix(written, s.Entries()) && |written| == |s.Entries()| < |InstallOrder(plan)|
    requires row == InstallOrder(plan)[|s.Entries()|] && row in plan && row.target !in written
    requires e.target == row.target && NewInode(plan, e.inode, s) && e.inode in s.files
    requires s.files[e.inode] == row.image && s.Links(e.inode) == {Temporary(e.temporary)}
    ensures var t := s.Record(Journal(Installing, written, s.Entries() + [e]));
            && Safe(plan, t) && Ready(plan, t, written, None) && t.Links(e.inode) == {Temporary(e.temporary)}
            && ClaimOf(t.Entries(), row.target) == Some(e)
            && Considerate(Step(s, t, false))
  {
    var t := s.Record(Journal(Installing, written, s.Entries() + [e]));
    assert RowReady(row, ClaimOf(s.Entries(), row.target), s, false);
    IntentKeepsSafe(plan, s, e, written);
    forall r | r in plan ensures RowReady(r, ClaimOf(t.Entries(), r.target), t, r.target in written) {
      ClaimOfAppended(s.Entries(), e, r.target);
      assert RowReady(r, ClaimOf(s.Entries(), r.target), s, r.target in written);
      if r.target == row.target { SameTargetSameRow(plan, r, row); }
    }
  }

  /** atomic, second half: publish the staged inode at the target, exclusively or over a retained original. */
  method Publish(tx: Transaction, plan: seq<Row>, row: Row, e: Custody, written: seq<string>) returns (r: Outcome)
    requires tx.Sound(plan) && tx.store.journal.Some? && Ready(plan, tx.store, written, None)
    requires row in plan && !row.prior.Preserved? && row.target !in written
    requires ClaimOf(tx.store.Entries(), row.target) == Some(e)
    requires tx.store.Links(e.inode) == {Temporary(e.temporary)}
    modifies tx`store, tx`steps, tx`refusals
    ensures tx.Sound(plan) && old(tx.steps) <= tx.steps && tx.store.journal == old(tx.store).journal
    ensures Ready(plan, tx.store, written, Some(row.target))
    ensures r.Denied? ==> r.reason.Refused? || (r.reason == TargetOccupied(row.target) && Occupied(row, tx.store))
    ensures r.Done? ==> Published(row, e, tx.store)
    ensures OwnStaging(tx.store, e.temporary) || Freed(row, e.temporary, tx.steps)
    ensures Counted(old(tx.refusals), tx.refusals, r)
  {
    hide Ready, RowReady, Recorded, Linked, Safe, WellFormed, Considerate;
    ReadyForgets(plan, tx.store, written, row.target);
    assert Temporary(e.temporary) in tx.store.Links(e.inode);
    ClaimIsOwned(plan, tx.store, row, e);
    var ok := PauseReady(tx, plan, written, None);
    InterferenceKeepsClaim(plan, old(tx.store), tx.store, row, e);
    ReadyForgets(plan, tx.store, written, row.target);
    ReadyIsUnchanged(plan, tx.store, written);
    if !ok { return Denied(Refused); }
    if !PreservedUnchanged(plan, tx.store, written) { return Denied(CustodyChanged); }
    if row.prior.Absent? {
      if Target(row.target) in tx.store.names {
        OccupiedByForeigner(plan, tx.store, row, e);
        return Denied(TargetOccupied(row.target));
      }
      LinkKeepsReady(plan, tx.store, row, e, written);
      tx.Perform(plan, tx.store.Link(Temporary(e.temporary), Target(row.target)), false);
    } else {
      ReplaceKeepsReady(plan, tx.store, row, e, written);
      tx.Perform(plan, tx.store.Move(Temporary(e.temporary), Target(row.target)), false);
    }
    ghost var s := tx.store;
    ok := PauseReady(tx, plan, written, Some(row.target));
    InterferenceKeepsPublished(plan, s, tx.store, row, e);
    r := if ok then Done else Denied(Refused);
  }

  /** The last step was the replacing rename that freed this staging name. */
  ghost predicate Freed(row: Row, nonce: nat, steps: seq<Step>) {
    steps != [] && Replaces(row, nonce, steps[|steps| - 1])
  }

  /** Another actor holds the target of a formerly absent row. */
  predicate Occupied(row: Row, s: Store) {
    row.prior.Absent? && Target(row.target) in s.names && s.names[Target(row.target)] !in s.owned
  }

  ghost predicate Published(row: Row, e: Custody, s: Store) {
    match row.prior
    case Preserved(_, _) => true
    case Absent => s.Links(e.inode) == {Target(row.target), Temporary(e.temporary)}
    case Replaced(o, _) => s.Links(o) == {Retained(row.target)} && s.Links(e.inode) == {Target(row.target)}
  }

  lemma ReadyForgets(plan: seq<Row>, s: Store, written: seq<string>, target: string)
    requires Ready(plan, s, written, None)
    ensures Ready(plan, s, written, Some(target))
  {
  }

  lemma ClaimIsOwned(plan: seq<Row>, s: Store, row: Row, e: Custody)
    requires Safe(plan, s) && row in plan && !row.prior.Preserved? && ClaimOf(s.Entries(), row.target) == Some(e)
    ensures e.inode in s.owned
  {
    assert RowSafe(row, Some(e), s);
  }

  lemma InterferenceKeepsClaim(plan: seq<Row>, s: Store, t: Store, row: Row, e: Custody)
    requires WellFormed(plan) && Safe(plan, s) && Interference(s, t) && row in plan && !row.prior.Preserved?
    requires ClaimOf(s.Entries(), row.target) == Some(e)
    ensures ClaimOf(t.Entries(), row.target) == Some(e) && t.Links(e.inode) == s.Links(e.inode)
    ensures t.journal == s.journal
  {
  }

  lemma InterferenceKeepsPublished(plan: seq<Row>, s: Store, t: Store, row: Row, e: Custody)
    requires WellFormed(plan) && Safe(plan, s) && Interference(s, t) && row in plan && !row.prior.Preserved?
    requires ClaimOf(s.Entries(), row.target) == Some(e) && Published(row, e, s)
    ensures Published(row, e, t) && t.journal == s.journal
  {
  }

  lemma OccupiedByForeigner(plan: seq<Row>, s: Store, row: Row, e: Custody)
    requires Safe(plan, s) && row in plan && row.prior.Absent? && Target(row.target) in s.names
    requires ClaimOf(s.Entries(), row.target) == Some(e) && s.Links(e.inode) == {Temporary(e.temporary)}
    ensures Occupied(row, s)
  {
    assert RowSafe(row, Some(e), s);
    assert Target(row.target) !in s.Links(e.inode);
  }

  lemma LinkKeepsReady(plan: seq<Row>, s: Store, row: Row, e: Custody, written: seq<string>)
    requires WellFormed(plan) && Safe(plan, s) && Ready(plan, s, written, None)
    requires row in plan && row.prior.Absent? && Target(row.target) !in s.names
    requires ClaimOf(s.Entries(), row.target) == Some(e) && s.Links(e.inode) == {Temporary(e.temporary)}
    ensures Temporary(e.temporary) in s.names
    ensures var t := s.Link(Temporary(e.temporary), Target(row.target));
            && Safe(plan, t) && Ready(plan, t, written, Some(row.target)) && Published(row, e, t)
            && Considerate(Step(s, t, false))
  {
    assert Temporary(e.temporary) in s.Links(e.inode);
    var t := s.Link(Temporary(e.temporary), Target(row.target));
    LinkKeepsSafe(plan, s, row, e);
    BindLinks(s.names, Target(row.target), e.inode);
    OthersHaveOtherInodes(plan, s, row, e);
    ReadyForgets(plan, s, written, row.target);
    ReadyUntouched(plan, s, t, written, Some(row.target), {e.inode});
  }

  lemma ReplaceKeepsReady(plan: seq<Row>, s: Store, row: Row, e: Custody, written: seq<string>)
    requires WellFormed(plan) && Safe(plan, s) && Ready(plan, s, written, None)
    requires row in plan && row.prior.Replaced? && row.target !in written
    requires ClaimOf(s.Entries(), row.target) == Some(e) && s.Links(e.inode) == {Temporary(e.temporary)}
    ensures Temporary(e.temporary) in s.names
    ensures var t := s.Move(Temporary(e.temporary), Target(row.target));
            && Safe(plan, t) && Ready(plan, t, written, Some(row.target)) && Published(row, e, t)
            && Considerate(Step(s, t, false))
  {
    hide Safe, WellFormed, Ready, RowReady, Considerate, ClaimOf;
    RetainedRowHolds(plan, s, row, written);
    assert Temporary(e.temporary) in s.Links(e.inode) && Target(row.target) in s.Links(row.prior.inode);
    var t := s.Move(Temporary(e.temporary), Target(row.target));
    ReplaceKeepsSafe(plan, s, row, e);
    ReplaceIsConsiderate(plan, s, row, e);
    OthersHaveOtherInodes(plan, s, row, e);
    ReadyForgets(plan, s, written, row.target);
    RenameLinks(s.names, Temporary(e.temporary), Target(row.target));
    ReadyUntouched(plan, s, t, written, Some(row.target), {e.inode, row.prior.inode});
  }

  lemma RetainedRowHolds(plan: seq<Row>, s: Store, row: Row, written: seq<string>)
    requires Ready(plan, s, written, None) && row in plan && row.prior.Replaced? && row.target !in written
    ensures Backup(row, s) && s.Links(row.prior.inode) == {Target(row.target), Retained(row.target)}
  {
    assert RowReady(row, ClaimOf(s.Entries(), row.target), s, false);
  }

  lemma ReplaceIsConsiderate(plan: seq<Row>, s: Store, row: Row, e: Custody)
    requires Safe(plan, s) && row in plan && row.prior.Replaced? && ClaimOf(s.Entries(), row.target) == Some(e)
    requires s.Is(Temporary(e.temporary), e.inode) && s.Is(Target(row.target), row.prior.inode)
    ensures Considerate(Step(s, s.Move(Temporary(e.temporary), Target(row.target)), false))
  {
    assert RowSafe(row, Some(e), s);
  }

  lemma OthersHaveOtherInodes(plan: seq<Row>, s: Store, row: Row, e: Custody)
    requires WellFormed(plan) && Safe(plan, s) && row in plan && ClaimOf(s.Entries(), row.target) == Some(e)
    ensures forall r :: r in plan && r.target != row.target ==>
              && (!r.prior.Absent? ==> r.prior.inode != e.inode)
              && (!r.prior.Absent? && !row.prior.Absent? ==> r.prior.inode != row.prior.inode)
              && (ClaimOf(s.Entries(), r.target).Some? ==>
                    && ClaimOf(s.Entries(), r.target).value.inode != e.inode
                    && (!row.prior.Absent? ==> ClaimOf(s.Entries(), r.target).value.inode != row.prior.inode))
    ensures !row.prior.Absent? ==> row.prior.inode != e.inode
  {
    ClaimIsRecorded(s.Entries(), row.target);
    forall r | r in plan && ClaimOf(s.Entries(), r.target).Some?
      ensures ClaimOf(s.Entries(), r.target).value in s.Entries()
      ensures ClaimOf(s.Entries(), r.target).value.target == r.target
    {
      ClaimIsRecorded(s.Entries(), r.target);
    }
  }

  /** atomic's `finally`: drop the staging name, whatever inode it names by now; seen: the store after the
      pause before it.  Unless the replacing rename freed the name, it still is the transaction's. */
  method Sweep(tx: Transaction, plan: seq<Row>, nonce: nat, ghost row: Row, ghost written: seq<string>,
               ghost current: Option<string>)
    returns (r: Outcome, ghost seen: Store)
    requires tx.Sound(plan) && Ready(plan, tx.store, written, current) && row in plan
    requires OwnStaging(tx.store, nonce) || Freed(row, nonce, tx.steps)
    modifies tx`store, tx`steps, tx`refusals
    ensures tx.Sound(plan) && old(tx.steps) <= tx.steps && tx.store.journal == old(tx.store).journal
    ensures tx.store.owned == old(tx.store).owned
    ensures Ready(plan, tx.store, written, current)
    ensures r.Denied? ==> r.reason.Refused?
    ensures r.Done? ==> forall j :: j in old(tx.store).owned ==>
                          tx.store.Links(j) == old(tx.store).Links(j) - {Temporary(nonce)}
    ensures Interference(old(tx.store), seen) && (OwnStaging(old(tx.store), nonce) ==> OwnStaging(seen, nonce))
    ensures if r.Done? && Temporary(nonce) in seen.names
            then tx.store == seen.Unlink(Temporary(nonce))
                 && tx.steps == old(tx.steps) + [Step(seen, tx.store, !OwnStaging(old(tx.store), nonce))]
            else tx.store == seen && tx.steps == old(tx.steps)
    ensures Counted(old(tx.refusals), tx.refusals, r)
  {
    hide Ready, RowReady, Recorded, Linked, Safe, WellFormed, Replaces, Considerate;
    ghost var own := OwnStaging(tx.store, nonce);
    var ok := PauseReady(tx, plan, written, current);
    InterferenceKeepsAllLinks(old(tx.store), tx.store);
    seen := tx.store;
    if !ok { return Denied(Refused), seen; }
    if Temporary(nonce) in tx.store.names {
      SweepKeepsReady(plan, tx.store, Temporary(nonce), written, current);
      tx.Perform(plan, tx.store.Unlink(Temporary(nonce)), !own);
    } else {
      assert forall j :: Temporary(nonce) !in seen.Links(j);
    }
    r := Done;
  }

  lemma SweepKeepsReady(plan: seq<Row>, s: Store, n: Name, written: seq<string>, current: Option<string>)
    requires WellFormed(plan) && Safe(plan, s) && Ready(plan, s, written, current) && n in s.names && n.Temporary?
    ensures var t := s.Unlink(n);
            && Safe(plan, t) && Ready(plan, t, written, current)
            && (s.names[n] in s.owned ==> Considerate(Step(s, t, false)))
            && forall j :: t.Links(j) == s.Links(j) - {n}
  {
    UnlinkTemporaryKeepsSafe(plan, s, n);
    UnbindLinks(s.names, n);
    var t := s.Unlink(n);
    forall r | r in plan && current != Some(r.target)
      ensures RowReady(r, ClaimOf(t.Entries(), r.target), t, r.target in written)
    {
      assert RowReady(r, ClaimOf(s.Entries(), r.target), s, r.target in written);
    }
  }

  /** install_new: one row through atomic, then its completion record. */
  method Place(tx: Transaction, plan: seq<Row>, row: Row, written: seq<string>, ownership: seq<Custody>)
    returns (r: Outcome, placed: seq<Custody>)
    requires tx.Sound(plan) && tx.store.journal == Some(Journal(Installing, written, ownership))
    requires Prefix(written, ownership) && |written| == |ownership| < |InstallOrder(plan)|
    requires row == InstallOrder(plan)[|ownership|] && row in plan && row.target !in written && !row.prior.Preserved?
    requires Ready(plan, tx.store, written, None)
    modifies tx`store, tx`steps, tx`refusals
    ensures tx.Sound(plan) && old(tx.steps) <= tx.steps && tx.store.journal.Some?
    ensures r.Denied? ==> r.reason.Refused? || (r.reason == TargetOccupied(row.target) && row.prior.Absent?)
    ensures r.Done? ==> |placed| == |ownership| + 1 && Prefix(written + [row.target], placed)
    ensures r.Done? ==> tx.store.journal == Some(Journal(Installing, written + [row.target], placed))
    ensures r.Done? ==> Ready(plan, tx.store, written + [row.target], None)
    ensures Counted(old(tx.refusals), tx.refusals, r)
  {
    hide Ready, RowReady, Recorded, Linked, Safe, WellFormed, Published, Replaces, PreservedUnchanged, Interference;
    ReadyIsUnchanged(plan, tx.store, written);
    if !PreservedUnchanged(plan, tx.store, written) { return Denied(CustodyChanged), ownership; }
    var staged, e;
    r, staged, e := Stage(tx, plan, row, written, ownership);
    if r.Done? {
      r := Publish(tx, plan, row, e, written);
    } else {
      ReadyForgets(plan, tx.store, written, row.target);
    }
    ghost var s := tx.store;
    if staged.Some? {
      var swept, _ := Sweep(tx, plan, staged.value, row, written, Some(row.target));
      if r.Done? { r := swept; }
    }
    if r.Denied? { return r, ownership; }
    placed := ownership + [e];
    PlacedIsReady(plan, s, tx.store, row, e, written);
    r := Seal(tx, plan, Installing, written + [row.target], placed);
  }

  /** Record progress over a ready store. */
  method Seal(tx: Transaction, plan: seq<Row>, state: State, written: seq<string>, ownership: seq<Custody>)
    returns (r: Outcome)
    requires tx.Sound(plan) && tx.store.journal.Some? && tx.store.Entries() == ownership
    requires Prefix(written, ownership) && |written| == |ownership|
    requires state.Installing? || (state.InstalledInactive? && |written| == |InstallOrder(plan)|)
    requires Ready(plan, tx.store, written, None)
    modifies tx`store, tx`steps, tx`refusals
    ensures tx.Sound(plan) && old(tx.steps) <= tx.steps && tx.store.journal.Some?
    ensures r.Denied? ==> r.reason.Refused?
    ensures r.Done? ==> tx.store.journal == Some(Journal(state, written, ownership))
    ensures r.Done? ==> Ready(plan, tx.store, written, None)
    ensures Counted(old(tx.refusals), tx.refusals, r)
  {
    JournalIsAccepted(plan, tx.store);
    hide Ready, RowReady, Recorded, Linked, Safe, WellFormed;
    var j := Journal(state, written, ownership);
    var ok := PauseReady(tx, plan, written, None);
    if !ok { return Denied(Refused); }
    ProgressKeepsSafe(plan, tx.store, j);
    RecordKeepsReady(plan, tx.store, j, written);
    tx.Perform(plan, tx.store.Record(j), false);
    ok := PauseReady(tx, plan, written, None);
    r := if ok then Done else Denied(Refused);
  }

  lemma RecordKeepsReady(plan: seq<Row>, s: Store, j: Journal, written: seq<string>)
    requires Ready(plan, s, written, None) && j.ownership == s.Entries()
    ensures Ready(plan, s.Record(j), written, None)
  {
  }

  lemma PlacedIsReady(plan: seq<Row>, s: Store, t: Store, row: Row, e: Custody, written: seq<string>)
    requires WellFormed(plan) && Safe(plan, s) && row in plan && !row.prior.Preserved?
    requires ClaimOf(s.Entries(), row.target) == Some(e) && Published(row, e, s) && t.Entries() == s.Entries()
    requires forall j :: j in s.owned ==> t.Links(j) == s.Links(j) - {Temporary(e.temporary)}
    requires Ready(plan, t, written, Some(row.target))
    ensures Ready(plan, t, written + [row.target], None)
  {
    assert RowSafe(row, Some(e), s);
    forall r | r in plan ensures RowReady(r, ClaimOf(t.Entries(), r.target), t, r.target in written + [row.target]) {
      assert r.target in written + [row.target] <==> r.target in written || r.target == row.target;
      if r.target == row.target {
        SameTargetSameRow(plan, r, row);
      } else {
        assert RowReady(r, ClaimOf(t.Entries(), r.target), t, r.target in written);
      }
    }
  }

  // ----- retaining the originals

  /** Rows before `i` are retained; the others still have their single original link. */
  ghost predicate Preparing(plan: seq<Row>, s: Store, i: nat) {
    && s.journal == Some(Journal(Installing, [], []))
    && forall m :: 0 <= m < |plan| && plan[m].prior.Replaced? ==>
         if m < i then RowReady(plan[m], None, s, false) else Untouched(plan[m], s)
  }

  ghost predicate Untouched(r: Row, s: Store)
    requires r.prior.Replaced?
  {
    s.Links(r.prior.inode) == {Target(r.target)} && Preimage(r.target) !in s.names && Retained(r.target) !in s.names
  }

  lemma InterferenceKeepsPreparing(plan: seq<Row>, s: Store, t: Store, i: nat)
    requires WellFormed(plan) && Safe(plan, s) && Interference(s, t) && Preparing(plan, s, i)
    ensures Preparing(plan, t, i)
  {
    forall m | 0 <= m < |plan| && plan[m].prior.Replaced?
      ensures if m < i then RowReady(plan[m], None, t, false) else Untouched(plan[m], t)
    {
      assert plan[m] in plan;
      InterferenceKeepsLinks(s, t, plan[m].prior.inode);
    }
  }

  lemma PreparingIsUnchanged(plan: seq<Row>, s: Store)
    requires WellFormed(plan) && Safe(plan, s) && s.Entries() == []
    ensures PreservedUnchanged(plan, s, [])
  {
    forall r | r in plan && r.prior.Replaced? ensures s.Is(Target(r.target), r.prior.inode) {
      assert RowSafe(r, None, s);
      assert Target(r.target) in s.Links(r.prior.inode);
    }
    PreservedUnchangedHolds(plan, s, []);
  }

  /** The preimage copy and the second hard link of one original. */
  method RetainOriginal(tx: Transaction, plan: seq<Row>, i: nat) returns (r: Outcome)
    requires tx.Sound(plan) && i < |plan| && plan[i].prior.Replaced? && Preparing(plan, tx.store, i)
    modifies tx`store, tx`steps, tx`refusals
    ensures tx.Sound(plan) && old(tx.steps) <= tx.steps && tx.store.journal == old(tx.store).journal
    ensures r.Denied? ==> r.reason.Refused?
    ensures r.Done? ==> Preparing(plan, tx.store, i + 1)
    ensures Counted(old(tx.refusals), tx.refusals, r)
  {
    hide Preparing, Copied, Recorded, Linked, Safe, WellFormed, PreservedUnchanged, Restored, UndoneFrom, Considerate;
    var row := plan[i];
    PreparingHasNoEntries(plan, tx.store, i);
    PreparingIsUnchanged(plan, tx.store);
    if !PreservedUnchanged(plan, tx.store, []) { return Denied(CustodyChanged); }
    var inode: nat := *;
    var ok := tx.Pause(plan, 0);
    InterferenceKeepsPreparing(plan, old(tx.store), tx.store, i);
    if !ok { return Denied(Refused); }
    if inode in tx.store.files {
      r := tx.RefuseCreation(Preimage(row.target), inode);
      return;
    }
    PreimageKeepsPreparing(plan, tx.store, i, inode);
    tx.Perform(plan, tx.store.Create(Preimage(row.target), inode, row.prior.image.(mode := OWNER_ONLY)), false);
    ghost var s := tx.store;
    ok := tx.Pause(plan, 0);
    InterferenceKeepsCopied(plan, s, tx.store, i);
    PreparingIsUnchanged(plan, tx.store);
    if !ok { return Denied(Refused); }
    if !PreservedUnchanged(plan, tx.store, []) { return Denied(CustodyChanged); }
    RetainKeepsPreparing(plan, tx.store, i);
    tx.Perform(plan, tx.store.Link(Target(row.target), Retained(row.target)), false);
    s := tx.store;
    ok := tx.Pause(plan, 0);
    InterferenceKeepsPreparing(plan, s, tx.store, i + 1);
    PreparingHasNoEntries(plan, tx.store, i + 1);
    PreparingIsUnchanged(plan, tx.store);
    if !ok { return Denied(Refused); }
    if !PreservedUnchanged(plan, tx.store, []) { return Denied(CustodyChanged); }
    r := Done;
  }

  lemma PreparingHasNoEntries(plan: seq<Row>, s: Store, i: nat)
    requires Preparing(plan, s, i)
    ensures s.Entries() == []
  {
  }

  /** Row `i` has its preimage copy but not yet its second link. */
  ghost predicate Copied(plan: seq<Row>, s: Store, i: nat)
    requires i < |plan| && plan[i].prior.Replaced?
  {
    && s.journal == Some(Journal(Installing, [], []))
    && Backup(plan[i], s) && Retained(plan[i].target) !in s.names
    && s.Links(plan[i].prior.inode) == {Target(plan[i].target)}
    && forall m :: 0 <= m < |plan| && m != i && plan[m].prior.Replaced? ==>
         if m < i then RowReady(plan[m], None, s, false) else Untouched(plan[m], s)
  }

  lemma InterferenceKeepsCopied(plan: seq<Row>, s: Store, t: Store, i: nat)
    requires WellFormed(plan) && Safe(plan, s) && Interference(s, t)
    requires i < |plan| && plan[i].prior.Replaced? && Copied(plan, s, i)
    ensures Copied(plan, t, i) && t.Entries() == []
  {
    assert plan[i] in plan;
    InterferenceKeepsLinks(s, t, plan[i].prior.inode);
    forall m | 0 <= m < |plan| && m != i && plan[m].prior.Replaced?
      ensures if m < i then RowReady(plan[m], None, t, false) else Untouched(plan[m], t)
    {
      assert plan[m] in plan;
      InterferenceKeepsLinks(s, t, plan[m].prior.inode);
    }
  }

  lemma PreimageKeepsPreparing(plan: seq<Row>, s: Store, i: nat, inode: Inode)
    requires WellFormed(plan) && Safe(plan, s) && i < |plan| && plan[i].prior.Replaced? && Preparing(plan, s, i)
    requires inode !in s.files
    ensures var t := s.Create(Preimage(plan[i].target), inode, plan[i].prior.image.(mode := OWNER_ONLY));
            Safe(plan, t) && Copied(plan, t, i) && Considerate(Step(s, t, false))
  {
    var n := Preimage(plan[i].target);
    assert plan[i] in plan && IsCopyOf(plan[i], n, plan[i].prior.image.(mode := OWNER_ONLY));
    CreateKeepsSafe(plan, s, n, inode, plan[i].prior.image.(mode := OWNER_ONLY));
    BindLinks(s.names, n, inode);
    var t := s.Create(n, inode, plan[i].prior.image.(mode := OWNER_ONLY));
    assert plan[i] in plan;
    forall m | 0 <= m < |plan| && m != i && plan[m].prior.Replaced?
      ensures if m < i then RowReady(plan[m], None, t, false) else Untouched(plan[m], t)
    {
      assert plan[m] in plan;
    }
  }

  lemma RetainKeepsPreparing(plan: seq<Row>, s: Store, i: nat)
    requires WellFormed(plan) && Safe(plan, s) && i < |plan| && plan[i].prior.Replaced? && Copied(plan, s, i)
    ensures Target(plan[i].target) in s.names
    ensures var t := s.Link(Target(plan[i].target), Retained(plan[i].target));
            Safe(plan, t) && Preparing(plan, t, i + 1) && Considerate(Step(s, t, false))
  {
    var row := plan[i];
    assert row in plan && Target(row.target) in s.Links(row.prior.inode);
    var t := s.Link(Target(row.target), Retained(row.target));
    RetainKeepsSafe(plan, s, row);
    BindLinks(s.names, Retained(row.target), row.prior.inode);
    forall m | 0 <= m < |plan| && plan[m].prior.Replaced?
      ensures if m < i + 1 then RowReady(plan[m], None, t, false) else Untouched(plan[m], t)
    {
      assert plan[m] in plan;
      if m != i { assert plan[m].target != row.target; }
    }
  }

  lemma PreparedIsReady(plan: seq<Row>, s: Store)
    requires Preparing(plan, s, |plan|)
    ensures Ready(plan, s, [], None)
  {
  }

  /** Receipt, plan and journal are written; then every original is copied and retained. */
  method Prepare(tx: Transaction, plan: seq<Row>) returns (r: Outcome)
    requires tx.Sound(plan) && Captured(plan, tx.store)
    modifies tx`store, tx`steps, tx`refusals
    ensures tx.Sound(plan) && old(tx.steps) <= tx.steps && tx.store.Entries() == []
    ensures r.Denied? ==> r.reason.Refused?
    ensures r.Done? ==> Ready(plan, tx.store, [], None) && tx.store.journal == Some(Journal(Installing, [], []))
    ensures Counted(old(tx.refusals), tx.refusals, r)
  {
    hide Preparing, Recorded, Linked, Safe, WellFormed, Ready;
    r := Begin(tx, plan);
    if r.Denied? { return; }
    var i := 0;
    while i < |plan|
      invariant 0 <= i <= |plan| && tx.Sound(plan) && old(tx.steps) <= tx.steps && tx.store.Entries() == []
      invariant Preparing(plan, tx.store, i) && tx.refusals == old(tx.refusals)
    {
      if plan[i].prior.Replaced? {
        r := RetainOriginal(tx, plan, i);
        if r.Denied? { return; }
      } else {
        SkipKeepsPreparing(plan, tx.store, i);
      }
      i := i + 1;
    }
    PreparedIsReady(plan, tx.store);
    PreparingJournal(plan, tx.store, i);
    r := Done;
  }

  lemma SkipKeepsPreparing(plan: seq<Row>, s: Store, i: nat)
    requires i < |plan| && !plan[i].prior.Replaced? && Preparing(plan, s, i)
    ensures Preparing(plan, s, i + 1)
  {
  }

  lemma PreparingJournal(plan: seq<Row>, s: Store, i: nat)
    requires Preparing(plan, s, i)
    ensures s.journal == Some(Journal(Installing, [], []))
  {
  }

  method Begin(tx: Transaction, plan: seq<Row>) returns (r: Outcome)
    requires tx.Sound(plan) && Captured(plan, tx.store)
    modifies tx`store, tx`steps, tx`refusals
    ensures tx.Sound(plan) && old(tx.steps) <= tx.steps && tx.store.Entries() == []
    ensures r.Denied? ==> r.reason.Refused?
    ensures r.Done? ==> Preparing(plan, tx.store, 0)
    ensures Counted(old(tx.refusals), tx.refusals, r)
  {
    hide Recorded, Linked, WellFormed, Restored, UndoneFrom, RowSafe, Considerate, JournalShape;
    var ok := tx.Pause(plan, 0);
    if !ok { return Denied(Refused); }
    InterferenceKeepsAllLinks(old(tx.store), tx.store);
    var j := Journal(Installing, [], []);
    ProgressKeepsSafe(plan, tx.store, j);
    tx.Perform(plan, tx.store.Record(j), false);
    assert Preparing(plan, tx.store, 0) by {
      assert forall m :: 0 <= m < |plan| ==> plan[m] in plan;
    }
    ghost var s := tx.store;
    ok := tx.Pause(plan, 0);
    InterferenceKeepsPreparing(plan, s, tx.store, 0);
    r := if ok then Done else Denied(Refused);
  }
}
