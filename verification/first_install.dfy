/** What the first-install transaction keeps on disk, and the invariant that makes every stop
    recoverable.  The transaction itself is in first_install_transaction.dfy. */
module FirstInstall {
  import opened Wrappers
  import opened FileWorld

  /** The mode 0600 of everything in the private directory. */
  const OWNER_ONLY: nat := 384

  datatype Branch = Authority | Operations | Interface

  /** The captured prestate of a target. */
  datatype Prior =
    | Absent
    | Preserved(inode: Inode, image: Image)
    | Replaced(inode: Inode, image: Image)

  /** One replacement row of the receipt, joined with its prestate row. */
  datatype Row = Row(target: string, branch: Branch, image: Image, prior: Prior)

  datatype State = Installing | InstalledInactive | RollingBack | RollbackComplete

  /** Write-ahead custody of one staged inode. */
  datatype Custody = Custody(target: string, inode: Inode, temporary: nat)

  datatype Journal = Journal(state: State, completed: seq<string>, ownership: seq<Custody>)

  /** The durable state.  `owned` is history, not disk content: the inodes that the transaction
      created or retains, whatever became of them. */
  datatype Store = Store(names: Names, files: map<Inode, Image>, journal: Option<Journal>, owned: set<Inode>) {
    function Links(i: Inode): set<Name> { LinksTo(names, i) }

    function Entries(): seq<Custody> {
      if journal.None? then [] else journal.value.ownership
    }

    predicate Is(n: Name, i: Inode) { n in names && names[n] == i }

    function Create(n: Name, i: Inode, image: Image): Store {
      this.(names := names[n := i], files := files[i := image], owned := owned + {i})
    }

    function Link(source: Name, destination: Name): Store
      requires source in names
    {
      this.(names := names[destination := names[source]])
    }

    function Move(source: Name, destination: Name): Store
      requires source in names
    {
      this.(names := Rename(names, source, destination))
    }

    function Unlink(n: Name): Store { this.(names := names - {n}) }

    function Record(j: Journal): Store { this.(journal := Some(j)) }
  }

  // ----- the receipt

  predicate WellFormed(plan: seq<Row>) {
    && (forall i, j :: 0 <= i < j < |plan| ==> plan[i].target != plan[j].target)
    && (forall r, q :: r in plan && q in plan && r.target != q.target && !r.prior.Absent? && !q.prior.Absent? ==>
          r.prior.inode != q.prior.inode)
    && (forall r :: r in plan && r.prior.Preserved? ==> r.prior.image == r.image)
    && (forall r :: r in plan && r.prior.Replaced? ==> r.prior.image.uid == r.prior.image.gid == 0)
  }

  /** Preserved targets are never placed; the rest are placed in receipt order. */
  function InstallOrder(plan: seq<Row>): seq<Row> {
    if plan == [] then []
    else (if plan[0].prior.Preserved? then [] else [plan[0]]) + InstallOrder(plan[1..])
  }

  /** Custody covers a prefix of the install order. */
  predicate FollowsOrder(order: seq<Row>, ownership: seq<Custody>) {
    |ownership| <= |order| && forall k :: 0 <= k < |ownership| ==> ownership[k].target == order[k].target
  }

  /** Completion is a prefix of custody. */
  predicate Prefix(completed: seq<string>, ownership: seq<Custody>) {
    |completed| <= |ownership| && forall k :: 0 <= k < |completed| ==> completed[k] == ownership[k].target
  }

  /** Completion is a prefix of custody read backwards. */
  predicate ReversePrefix(completed: seq<string>, ownership: seq<Custody>) {
    |completed| <= |ownership| &&
    forall k :: 0 <= k < |completed| ==> completed[k] == ownership[|ownership| - 1 - k].target
  }

  /** The custody recorded for a target, if any. */
  function ClaimOf(entries: seq<Custody>, target: string): Option<Custody> {
    if entries == [] then None
    else if entries[|entries| - 1].target == target then Some(entries[|entries| - 1])
    else ClaimOf(entries[..|entries| - 1], target)
  }

  lemma {:induction false} OrderIsThePlacedRows(plan: seq<Row>)
    requires WellFormed(plan)
    ensures forall r :: r in InstallOrder(plan) <==> r in plan && !r.prior.Preserved?
    ensures forall i, j :: 0 <= i < j < |InstallOrder(plan)| ==>
                             InstallOrder(plan)[i].target != InstallOrder(plan)[j].target
  {
    if plan == [] {
    } else {
      assert forall r :: r in plan[1..] ==> r in plan;
      OrderIsThePlacedRows(plan[1..]);
      assert forall r :: r in plan <==> r == plan[0] || r in plan[1..];
      assert forall r :: r in plan[1..] ==> r.target != plan[0].target;
    }
  }

  lemma {:induction false} ClaimIsRecorded(entries: seq<Custody>, target: string)
    ensures var c := ClaimOf(entries, target);
            if c.Some? then c.value in entries && c.value.target == target
            else forall e :: e in entries ==> e.target != target
  {
    if entries == [] {
    } else if entries[|entries| - 1].target == target {
    } else {
      ClaimIsRecorded(entries[..|entries| - 1], target);
      assert entries == entries[..|entries| - 1] + [entries[|entries| - 1]];
    }
  }

  lemma {:induction false} ClaimOfEntry(entries: seq<Custody>, k: nat)
    requires k < |entries|
    requires forall i, j :: 0 <= i < j < |entries| ==> entries[i].target != entries[j].target
    ensures ClaimOf(entries, entries[k].target) == Some(entries[k])
  {
    if k < |entries| - 1 {
      ClaimOfEntry(entries[..|entries| - 1], k);
    }
  }

  lemma ClaimOfAppended(entries: seq<Custody>, e: Custody, target: string)
    ensures ClaimOf(entries + [e], target) == if e.target == target then Some(e) else ClaimOf(entries, target)
  {
  }

  /** What lstat and a read of a name report: this inode, this content, this many links. */
  predicate Observed(s: Store, n: Name, i: Inode, image: Image, links: nat) {
    s.Is(n, i) && i in s.files && s.files[i] == image && |s.Links(i)| == links
  }

  lemma ObservedLinks(s: Store, n: Name, i: Inode, image: Image)
    ensures Observed(s, n, i, image, 1) <==> s.Links(i) == {n} && i in s.files && s.files[i] == image
    ensures forall m :: m != n && s.Links(i) == {n, m} && i in s.files && s.files[i] == image ==>
                          Observed(s, n, i, image, 2)
  {
    assert s.Is(n, i) <==> n in s.Links(i);
    if Observed(s, n, i, image, 1) {
      assert |s.Links(i) - {n}| == 0;
      assert s.Links(i) == {n};
    }
    forall m | m != n && s.Links(i) == {n, m} ensures |s.Links(i)| == 2 && s.Is(n, i) {
      assert n in s.Links(i);
    }
  }

  // ----- the invariant

  /** Every journal that install or rollback leaves: custody follows the install order; while
      installing, completion is short of custody by at most one; while rolling back, completion
      is a prefix of the reversed custody. */
  predicate JournalShape(plan: seq<Row>, j: Journal) {
    && FollowsOrder(InstallOrder(plan), j.ownership)
    && (match j.state
        case Installing => Prefix(j.completed, j.ownership) && |j.ownership| - |j.completed| <= 1
        case InstalledInactive => Prefix(j.completed, j.ownership) && |j.completed| == |InstallOrder(plan)|
        case RollingBack => ReversePrefix(j.completed, j.ownership)
        case RollbackComplete => ReversePrefix(j.completed, j.ownership) && |j.completed| == |j.ownership|)
  }

  /** Custody inodes are new: never an original, never shared between targets. */
  ghost predicate NewInodes(plan: seq<Row>, entries: seq<Custody>) {
    && (forall e, r :: e in entries && r in plan && !r.prior.Absent? ==> e.inode != r.prior.inode)
    && (forall e, f :: e in entries && f in entries && e.target != f.target ==> e.inode != f.inode)
  }

  predicate Backup(row: Row, s: Store)
    requires row.prior.Replaced?
  {
    Preimage(row.target) in s.names && s.names[Preimage(row.target)] in s.files &&
    s.files[s.names[Preimage(row.target)]] == row.prior.image.(mode := OWNER_ONLY)
  }

  predicate ClaimHolds(row: Row, e: Custody, s: Store) {
    e.inode in s.owned && e.inode in s.files && s.files[e.inode] == row.image
  }

  /** Where the original inode and the staged inode of one row may be. */
  ghost predicate RowSafe(row: Row, claim: Option<Custody>, s: Store) {
    var here, held := Target(row.target), Retained(row.target);
    match row.prior
    case Preserved(o, _) => s.Links(o) == {here}
    case Absent =>
      && (here in s.names && s.names[here] in s.owned ==> claim.Some? && s.names[here] == claim.value.inode)
      && (claim.Some? ==> ClaimHolds(row, claim.value, s) &&
                          s.Links(claim.value.inode) <= {here, Temporary(claim.value.temporary)})
    case Replaced(o, _) =>
      && (held in s.names ==> s.names[held] == o)
      && match claim
         case None => s.Links(o) == {here} || s.Links(o) == {here, held}
         case Some(e) =>
           && ClaimHolds(row, e, s) && Backup(row, s)
           && (|| ((s.Links(o) == {here} || s.Links(o) == {here, held}) && s.Links(e.inode) <= {Temporary(e.temporary)})
               || (s.Links(o) == {held} && s.Links(e.inode) == {here}))
  }

  /** Every private name belongs to a replaced row of the plan, and a copy holds what the row's target held. */
  ghost predicate OwnCopies(plan: seq<Row>, s: Store) {
    forall n :: n in s.names && Private(n) ==> exists r :: r in plan && BelongsTo(n, r, s)
  }

  predicate BelongsTo(n: Name, r: Row, s: Store)
    requires Private(n)
  {
    r.prior.Replaced? && r.target == n.path && (n.Preimage? ==> Backup(r, s))
  }

  /** They stay when no private name is added or bound anew. */
  lemma CopiesStay(plan: seq<Row>, s: Store, t: Store)
    requires OwnCopies(plan, s)
    requires forall n :: n in t.names && Private(n) ==> n in s.names && t.names[n] == s.names[n]
    requires forall n :: n in s.names && Private(n) ==>
               s.names[n] in s.files && s.names[n] in t.files && t.files[s.names[n]] == s.files[s.names[n]]
    ensures OwnCopies(plan, t)
  {
    forall n | n in t.names && Private(n) ensures exists r :: r in plan && BelongsTo(n, r, t) {
      var r :| r in plan && BelongsTo(n, r, s);
      assert BelongsTo(n, r, t);
    }
  }

  ghost predicate StoreShape(plan: seq<Row>, s: Store) {
    && s.owned <= s.files.Keys
    && (forall n :: n in s.names ==> s.names[n] in s.files)
    && (forall n :: n in s.names && Private(n) ==> s.names[n] in s.owned)
    && (forall n, m :: n in s.names && m in s.names && n.Preimage? && s.names[m] == s.names[n] ==> m == n)
    && OwnCopies(plan, s)
    && (forall r :: r in plan && !r.prior.Absent? ==>
          r.prior.inode in s.owned && s.files[r.prior.inode] == r.prior.image)
    && NewInodes(plan, s.Entries())
    && (s.journal.Some? ==> JournalShape(plan, s.journal.value))
  }

  /** A stop in this state can be rolled back. */
  ghost predicate Safe(plan: seq<Row>, s: Store) {
    && StoreShape(plan, s)
    && forall r :: r in plan ==> RowSafe(r, ClaimOf(s.Entries(), r.target), s)
  }

  /** What other actors may do between two operations of the transaction: anything with their own
      inodes and with free public names, at any time, but nothing to the names or contents of the
      transaction's inodes and nothing inside the private directory. */
  predicate Interference(s: Store, t: Store) {
    && t.owned == s.owned && t.journal == s.journal
    && s.files.Keys <= t.files.Keys
    && (forall i :: i in s.owned && i in s.files ==> t.files[i] == s.files[i])
    && (forall n :: n in t.names ==> t.names[n] in t.files)
    && (forall n :: n in s.names && s.names[n] in s.owned ==> n in t.names && t.names[n] == s.names[n])
    && (forall n :: n in t.names && (t.names[n] in s.owned || Private(n)) ==> n in s.names && s.names[n] == t.names[n])
  }

  lemma InterferenceKeepsLinks(s: Store, t: Store, i: Inode)
    requires Interference(s, t) && i in s.owned
    ensures t.Links(i) == s.Links(i)
  {
  }

  lemma InterferenceKeepsSafe(plan: seq<Row>, s: Store, t: Store)
    requires Safe(plan, s) && Interference(s, t)
    ensures Safe(plan, t)
  {
    forall r | r in plan ensures RowSafe(r, ClaimOf(t.Entries(), r.target), t) {
      var claim := ClaimOf(s.Entries(), r.target);
      assert RowSafe(r, claim, s);
      if !r.prior.Absent? { InterferenceKeepsLinks(s, t, r.prior.inode); }
      if claim.Some? && ClaimHolds(r, claim.value, s) { InterferenceKeepsLinks(s, t, claim.value.inode); }
    }
  }

  // ----- each durable operation keeps the invariant

  predicate IsCopyOf(r: Row, n: Name, image: Image) {
    r.prior.Replaced? && n == Preimage(r.target) && image == r.prior.image.(mode := OWNER_ONLY)
  }

  lemma ShapeOwns(plan: seq<Row>, s: Store)
    requires StoreShape(plan, s)
    ensures s.owned <= s.files.Keys && forall n :: n in s.names ==> s.names[n] in s.files
    ensures forall r :: r in plan && !r.prior.Absent? ==> r.prior.inode in s.owned
    ensures NewInodes(plan, s.Entries())
  {
  }

  lemma CreateKeepsShape(plan: seq<Row>, s: Store, n: Name, i: Inode, image: Image)
    requires StoreShape(plan, s) && i !in s.files && n !in s.names && (n.Temporary? || n.Preimage?)
    requires n.Preimage? ==> exists r :: r in plan && IsCopyOf(r, n, image)
    ensures StoreShape(plan, s.Create(n, i, image))
  {
    hide OwnCopies, JournalShape, NewInodes;
    var t := s.Create(n, i, image);
    CopiesStay(plan, s, t.(names := s.names));
    if n.Preimage? {
      var r :| r in plan && IsCopyOf(r, n, image);
      OneMoreCopy(plan, t.(names := s.names), n, i, r);
    } else {
      CopiesStay(plan, t.(names := s.names), t);
    }
  }

  lemma OneMoreCopy(plan: seq<Row>, s: Store, n: Name, i: Inode, r: Row)
    requires OwnCopies(plan, s) && n !in s.names && i in s.files && r in plan && IsCopyOf(r, n, s.files[i])
    ensures OwnCopies(plan, s.(names := s.names[n := i]))
  {
    var t := s.(names := s.names[n := i]);
    forall m | m in t.names && Private(m) ensures exists q :: q in plan && BelongsTo(m, q, t) {
      if m == n {
        assert BelongsTo(n, r, t);
      } else {
        var q :| q in plan && BelongsTo(m, q, s);
        assert BelongsTo(m, q, t);
      }
    }
  }

  lemma CreateKeepsSafe(plan: seq<Row>, s: Store, n: Name, i: Inode, image: Image)
    requires Safe(plan, s) && i !in s.files && n !in s.names && (n.Temporary? || n.Preimage?)
    requires n.Preimage? ==> exists r :: r in plan && IsCopyOf(r, n, image)
    ensures Safe(plan, s.Create(n, i, image)) && s.Create(n, i, image).Links(i) == {n}
  {
    hide StoreShape;
    ShapeOwns(plan, s);
    var t := s.Create(n, i, image);
    CreateKeepsShape(plan, s, n, i, image);
    BindLinks(s.names, n, i);
    assert s.Links(i) == {};
    forall r | r in plan ensures RowSafe(r, ClaimOf(t.Entries(), r.target), t) {
      assert RowSafe(r, ClaimOf(s.Entries(), r.target), s);
    }
  }

  lemma LinkKeepsSafe(plan: seq<Row>, s: Store, row: Row, e: Custody)
    requires WellFormed(plan) && Safe(plan, s) && row in plan && row.prior.Absent?
    requires ClaimOf(s.Entries(), row.target) == Some(e)
    requires s.Is(Temporary(e.temporary), e.inode) && Target(row.target) !in s.names
    ensures Safe(plan, s.Link(Temporary(e.temporary), Target(row.target)))
    ensures s.Link(Temporary(e.temporary), Target(row.target)).Links(e.inode) ==
            s.Links(e.inode) + {Target(row.target)}
  {
    var t := s.Link(Temporary(e.temporary), Target(row.target));
    BindLinks(s.names, Target(row.target), e.inode);
    ClaimIsRecorded(s.Entries(), row.target);
    assert RowSafe(row, Some(e), s);
    forall r | r in plan ensures RowSafe(r, ClaimOf(t.Entries(), r.target), t) {
      if r.target == row.target {
        SameTargetSameRow(plan, r, row);
      } else {
        OtherRowsKeepTheirInodes(plan, s, e, r);
        RowUntouched(r, ClaimOf(s.Entries(), r.target), s, t);
      }
    }
  }

  /** A row is as safe as before when its own names, inodes and contents are as before. */
  lemma RowUntouched(r: Row, claim: Option<Custody>, s: Store, t: Store)
    requires RowSafe(r, claim, s) && t.owned == s.owned && t.files == s.files
    requires forall n :: n in {Target(r.target), Retained(r.target), Preimage(r.target)} ==>
                           (n in s.names <==> n in t.names) && (n in s.names ==> t.names[n] == s.names[n])
    requires !r.prior.Absent? ==> t.Links(r.prior.inode) == s.Links(r.prior.inode)
    requires claim.Some? ==> t.Links(claim.value.inode) == s.Links(claim.value.inode)
    ensures RowSafe(r, claim, t)
  {
  }

  lemma OtherRowsKeepTheirInodes(plan: seq<Row>, s: Store, e: Custody, r: Row)
    requires NewInodes(plan, s.Entries()) && r in plan && r.target != e.target
    requires ClaimOf(s.Entries(), e.target) == Some(e)
    ensures !r.prior.Absent? ==> r.prior.inode != e.inode
    ensures ClaimOf(s.Entries(), r.target).Some? ==> ClaimOf(s.Entries(), r.target).value.inode != e.inode
  {
    ClaimIsRecorded(s.Entries(), e.target);
    ClaimIsRecorded(s.Entries(), r.target);
  }

  /** Putting the staged inode over a retained original. */
  lemma ReplaceKeepsSafe(plan: seq<Row>, s: Store, row: Row, e: Custody)
    requires WellFormed(plan) && Safe(plan, s) && row in plan && row.prior.Replaced?
    requires ClaimOf(s.Entries(), row.target) == Some(e)
    requires s.Is(Temporary(e.temporary), e.inode)
    requires s.Links(row.prior.inode) == {Target(row.target), Retained(row.target)}
    ensures var t := s.Move(Temporary(e.temporary), Target(row.target));
            && Safe(plan, t)
            && t.Links(row.prior.inode) == {Retained(row.target)}
            && t.Links(e.inode) == {Target(row.target)}
  {
    var t := s.Move(Temporary(e.temporary), Target(row.target));
    ClaimIsRecorded(s.Entries(), row.target);
    assert RowSafe(row, Some(e), s);
    assert Target(row.target) in s.Links(row.prior.inode);
    assert Retained(row.target) in s.Links(row.prior.inode);
    assert Temporary(e.temporary) in s.Links(e.inode);
    assert s.Links(e.inode) == {Temporary(e.temporary)};
    RenameLinks(s.names, Temporary(e.temporary), Target(row.target));
    assert t.Links(row.prior.inode) == {Retained(row.target)};
    assert t.Links(e.inode) == {Target(row.target)};
    forall r | r in plan ensures RowSafe(r, ClaimOf(t.Entries(), r.target), t) {
      if r.target == row.target {
        SameTargetSameRow(plan, r, row);
      } else {
        OtherRowsKeepTheirInodes(plan, s, e, r);
        OtherRowsKeepTheOriginal(plan, s, row, r);
        RowUntouched(r, ClaimOf(s.Entries(), r.target), s, t);
      }
    }
  }

  lemma OtherRowsKeepTheOriginal(plan: seq<Row>, s: Store, row: Row, r: Row)
    requires WellFormed(plan) && NewInodes(plan, s.Entries()) && row in plan && r in plan && r.target != row.target
    requires !row.prior.Absent?
    ensures !r.prior.Absent? ==> r.prior.inode != row.prior.inode
    ensures ClaimOf(s.Entries(), r.target).Some? ==> ClaimOf(s.Entries(), r.target).value.inode != row.prior.inode
  {
    ClaimIsRecorded(s.Entries(), r.target);
  }

  lemma UnlinkKeepsShape(plan: seq<Row>, s: Store, n: Name)
    requires StoreShape(plan, s) && n in s.names
    ensures StoreShape(plan, s.Unlink(n))
  {
    hide OwnCopies;
    CopiesStay(plan, s, s.Unlink(n));
  }

  /** Removing a staging name never endangers a row, whoever holds the name. */
  lemma UnlinkTemporaryKeepsSafe(plan: seq<Row>, s: Store, n: Name)
    requires Safe(plan, s) && n in s.names && n.Temporary?
    ensures Safe(plan, s.Unlink(n)) && s.Unlink(n).Links(s.names[n]) == s.Links(s.names[n]) - {n}
  {
    hide StoreShape;
    var t := s.Unlink(n);
    UnlinkKeepsShape(plan, s, n);
    UnbindLinks(s.names, n);
    assert n in s.Links(s.names[n]);
    forall r | r in plan ensures RowSafe(r, ClaimOf(t.Entries(), r.target), t) {
      assert RowSafe(r, ClaimOf(s.Entries(), r.target), s);
    }
  }

  lemma UnlinkTargetKeepsSafe(plan: seq<Row>, s: Store, row: Row, e: Custody)
    requires WellFormed(plan) && Safe(plan, s) && row in plan && row.prior.Absent?
    requires ClaimOf(s.Entries(), row.target) == Some(e) && s.Is(Target(row.target), e.inode)
    ensures Safe(plan, s.Unlink(Target(row.target)))
    ensures s.Unlink(Target(row.target)).Links(e.inode) == s.Links(e.inode) - {Target(row.target)}
  {
    var t := s.Unlink(Target(row.target));
    UnbindLinks(s.names, Target(row.target));
    ClaimIsRecorded(s.Entries(), row.target);
    assert RowSafe(row, Some(e), s);
    forall r | r in plan ensures RowSafe(r, ClaimOf(t.Entries(), r.target), t) {
      if r.target == row.target {
        SameTargetSameRow(plan, r, row);
      } else {
        OtherRowsKeepTheirInodes(plan, s, e, r);
        RowUntouched(r, ClaimOf(s.Entries(), r.target), s, t);
      }
    }
  }

  /** Retaining the original inode by a second hard link. */
  lemma RetainKeepsSafe(plan: seq<Row>, s: Store, row: Row)
    requires WellFormed(plan) && Safe(plan, s) && row in plan && row.prior.Replaced?
    requires ClaimOf(s.Entries(), row.target).None?
    requires s.Is(Target(row.target), row.prior.inode) && Retained(row.target) !in s.names
    ensures var t := s.Link(Target(row.target), Retained(row.target));
            Safe(plan, t) && t.Links(row.prior.inode) == {Target(row.target), Retained(row.target)}
  {
    var t := s.Link(Target(row.target), Retained(row.target));
    BindLinks(s.names, Retained(row.target), row.prior.inode);
    assert RowSafe(row, None, s);
    assert Retained(row.target) !in s.Links(row.prior.inode);
    forall r | r in plan ensures RowSafe(r, ClaimOf(t.Entries(), r.target), t) {
      if r.target == row.target {
        SameTargetSameRow(plan, r, row);
      } else {
        OtherRowsKeepTheOriginal(plan, s, row, r);
        RowUntouched(r, ClaimOf(s.Entries(), r.target), s, t);
      }
    }
  }

  /** Dropping the second link while the target still is the original. */
  lemma ReleaseKeepsSafe(plan: seq<Row>, s: Store, row: Row)
    requires WellFormed(plan) && Safe(plan, s) && row in plan && row.prior.Replaced?
    requires s.Is(Target(row.target), row.prior.inode) && Retained(row.target) in s.names
    ensures var t := s.Unlink(Retained(row.target));
            && s.Links(row.prior.inode) == {Target(row.target), Retained(row.target)}
            && Safe(plan, t) && t.Links(row.prior.inode) == {Target(row.target)}
  {
    var t := s.Unlink(Retained(row.target));
    assert RowSafe(row, ClaimOf(s.Entries(), row.target), s);
    assert Target(row.target) in s.Links(row.prior.inode);
    assert Retained(row.target) in s.Links(row.prior.inode);
    UnbindLinks(s.names, Retained(row.target));
    assert t.Links(row.prior.inode) == {Target(row.target)};
    forall r | r in plan ensures RowSafe(r, ClaimOf(t.Entries(), r.target), t) {
      if r.target == row.target {
        SameTargetSameRow(plan, r, row);
      } else {
        OtherRowsKeepTheOriginal(plan, s, row, r);
        RowUntouched(r, ClaimOf(s.Entries(), r.target), s, t);
      }
    }
  }

  /** A rename between names that are no copies keeps the shape of the store. */
  lemma MoveKeepsShape(plan: seq<Row>, s: Store, from: Name, to: Name)
    requires StoreShape(plan, s) && from in s.names && !from.Preimage? && !Private(to)
    ensures StoreShape(plan, s.Move(from, to))
  {
    hide OwnCopies;
    CopiesStay(plan, s, s.Move(from, to));
  }

  /** Renaming the retained original back over the staged inode. */
  lemma ReinstateKeepsSafe(plan: seq<Row>, s: Store, row: Row, e: Custody)
    requires WellFormed(plan) && Safe(plan, s) && row in plan && row.prior.Replaced?
    requires ClaimOf(s.Entries(), row.target) == Some(e) && s.Is(Target(row.target), e.inode)
    ensures var t := s.Move(Retained(row.target), Target(row.target));
            && s.Links(row.prior.inode) == {Retained(row.target)} && s.Links(e.inode) == {Target(row.target)}
            && Safe(plan, t) && t.Links(row.prior.inode) == {Target(row.target)} && t.Links(e.inode) == {}
            && Retained(row.target) !in t.names
  {
    hide StoreShape, NewInodes;
    ShapeOwns(plan, s);
    ClaimIsRecorded(s.Entries(), row.target);
    assert RowSafe(row, Some(e), s);
    assert Target(row.target) in s.Links(e.inode);
    assert Retained(row.target) in s.Links(row.prior.inode);
    var t := s.Move(Retained(row.target), Target(row.target));
    RenameLinks(s.names, Retained(row.target), Target(row.target));
    assert t.Links(row.prior.inode) == {Target(row.target)};
    assert t.Links(e.inode) == {};
    MoveKeepsShape(plan, s, Retained(row.target), Target(row.target));
    forall r | r in plan ensures RowSafe(r, ClaimOf(t.Entries(), r.target), t) {
      if r.target == row.target {
        SameTargetSameRow(plan, r, row);
      } else {
        OtherRowsKeepTheirInodes(plan, s, e, r);
        OtherRowsKeepTheOriginal(plan, s, row, r);
        RowUntouched(r, ClaimOf(s.Entries(), r.target), s, t);
      }
    }
  }

  /** The write-ahead record: from here on the staged inode belongs to the target's row. */
  lemma IntentKeepsSafe(plan: seq<Row>, s: Store, e: Custody, completed: seq<string>)
    requires WellFormed(plan) && Safe(plan, s)
    requires |s.Entries()| < |InstallOrder(plan)|
    requires var row := InstallOrder(plan)[|s.Entries()|];
             && e.target == row.target && ClaimHolds(row, e, s)
             && s.Links(e.inode) <= {Temporary(e.temporary)}
             && (row.prior.Replaced? ==> Backup(row, s))
    requires forall r :: r in plan && !r.prior.Absent? ==> e.inode != r.prior.inode
    requires forall f :: f in s.Entries() ==> f.inode != e.inode
    requires Prefix(completed, s.Entries()) && |completed| == |s.Entries()|
    ensures Safe(plan, s.Record(Journal(Installing, completed, s.Entries() + [e])))
    ensures ClaimOf(s.Entries() + [e], e.target) == Some(e)
  {
    var own := s.Entries();
    var t := s.Record(Journal(Installing, completed, own + [e]));
    NextClaimExtendsTheOrder(plan, s, e);
    NewClaimIsNew(plan, own, e);
    OrderIsThePlacedRows(plan);
    forall r | r in plan ensures RowSafe(r, ClaimOf(own + [e], r.target), t) {
      if r.target == e.target { SameTargetSameRow(plan, r, InstallOrder(plan)[|own|]); }
      IntentKeepsRow(plan, s, e, r, t);
    }
    assert t.Entries() == own + [e];
    ClaimOfAppended(own, e, e.target);
  }

  lemma IntentKeepsRow(plan: seq<Row>, s: Store, e: Custody, r: Row, t: Store)
    requires WellFormed(plan) && r in plan && RowSafe(r, ClaimOf(s.Entries(), r.target), s)
    requires t.names == s.names && t.files == s.files && t.owned == s.owned
    requires forall f :: f in s.Entries() ==> f.target != e.target
    requires r.target == e.target ==>
               && !r.prior.Preserved? && ClaimHolds(r, e, s) && s.Links(e.inode) <= {Temporary(e.temporary)}
               && (r.prior.Replaced? ==> Backup(r, s))
    ensures RowSafe(r, ClaimOf(s.Entries() + [e], r.target), t)
  {
    ClaimOfAppended(s.Entries(), e, r.target);
    if r.target == e.target {
      UnclaimedSoFar(s.Entries(), e.target);
    }
  }

  lemma NewClaimIsNew(plan: seq<Row>, entries: seq<Custody>, e: Custody)
    requires NewInodes(plan, entries)
    requires forall r :: r in plan && !r.prior.Absent? ==> e.inode != r.prior.inode
    requires forall f :: f in entries ==> f.inode != e.inode
    ensures NewInodes(plan, entries + [e])
  {
  }

  lemma UnclaimedSoFar(entries: seq<Custody>, target: string)
    requires forall f :: f in entries ==> f.target != target
    ensures ClaimOf(entries, target).None?
  {
  }

  lemma NextClaimExtendsTheOrder(plan: seq<Row>, s: Store, e: Custody)
    requires WellFormed(plan) && StoreShape(plan, s)
    requires |s.Entries()| < |InstallOrder(plan)| && e.target == InstallOrder(plan)[|s.Entries()|].target
    ensures FollowsOrder(InstallOrder(plan), s.Entries() + [e])
    ensures forall f :: f in s.Entries() ==> f.target != e.target
  {
    OrderIsThePlacedRows(plan);
  }

  lemma SameTargetSameRow(plan: seq<Row>, r: Row, q: Row)
    requires WellFormed(plan) && r in plan && q in plan && r.target == q.target
    ensures r == q
  {
  }

  /** Progress records change no custody. */
  lemma ProgressKeepsSafe(plan: seq<Row>, s: Store, j: Journal)
    requires Safe(plan, s) && JournalShape(plan, j) && j.ownership == s.Entries()
    ensures Safe(plan, s.Record(j))
  {
    var t := s.Record(j);
    forall r | r in plan ensures RowSafe(r, ClaimOf(t.Entries(), r.target), t) {
      assert RowSafe(r, ClaimOf(s.Entries(), r.target), s);
    }
  }

  // ----- what a completed rollback means

  /** Every target is back: replaced ones on their original inode with one link, preserved ones
      untouched, formerly absent ones absent or held by an inode that is not the transaction's. */
  ghost predicate Restored(plan: seq<Row>, s: Store) {
    && Safe(plan, s)
    && (forall r :: r in plan ==> RowRestored(r, s))
    && (forall e :: e in s.Entries() ==> s.Links(e.inode) == {})
  }

  ghost predicate RowRestored(r: Row, s: Store) {
    match r.prior
    case Absent => Target(r.target) in s.names ==> s.names[Target(r.target)] !in s.owned
    case Preserved(o, image) => Observed(s, Target(r.target), o, image, 1)
    case Replaced(o, image) => Observed(s, Target(r.target), o, image, 1)
  }

  lemma InterferenceKeepsRestored(plan: seq<Row>, s: Store, t: Store)
    requires WellFormed(plan) && Restored(plan, s) && Interference(s, t)
    ensures Restored(plan, t)
  {
    InterferenceKeepsSafe(plan, s, t);
    forall r | r in plan ensures RowRestored(r, t) {
      assert RowRestored(r, s);
      if !r.prior.Absent? { InterferenceKeepsLinks(s, t, r.prior.inode); }
    }
    forall e | e in t.Entries() ensures t.Links(e.inode) == {} {
      assert exists k :: 0 <= k < |s.Entries()| && s.Entries()[k] == e;
      EntriesAreOwned(plan, s, e);
      InterferenceKeepsLinks(s, t, e.inode);
    }
  }

  lemma EntriesAreOwned(plan: seq<Row>, s: Store, e: Custody)
    requires WellFormed(plan) && Safe(plan, s) && e in s.Entries()
    ensures exists r :: r in plan && !r.prior.Preserved? && r.target == e.target && RowSafe(r, Some(e), s)
    ensures e.inode in s.owned
  {
    var own := s.Entries();
    var k :| 0 <= k < |own| && own[k] == e;
    OrderIsThePlacedRows(plan);
    var order := InstallOrder(plan);
    assert s.journal.Some?;
    ClaimOfEntry(own, k);
    assert RowSafe(order[k], Some(e), s);
  }
}
