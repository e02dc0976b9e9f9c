/** Preparation of the canonical-input transition: copies are written under a signed preparation
    record before any intent exists.  A stop in the middle of a write leaves a prefix, and one in the middle
    of a create-only record leaves that record with two links. */
module InputPreparation {

  import opened Wrappers

  type Bytes = seq<int>
  type Tree = map<string, Bytes>

  /** The three inputs of one side. */
  datatype Trio = Trio(source: Tree, receipt: Bytes, request: Bytes)

  datatype Copy =
    | PredecessorRequest | PredecessorReceipt | CandidateRequest | CandidateReceipt
    | StagedRequest | StagedReceipt

  datatype Side = PredecessorSource | CandidateSource

  /** The owner record beside the external inputs, and the entries of the selector directory.  Later: names that
      only publication may create. */
  datatype Name =
    | ExternalRecord | PreparationRecord | Intent | RetainedRecord | Plan
    | CopyFile(copy: Copy) | TreeFile(side: Side, path: string)
    | Later(which: string) | Other(which: string)
  {
    predicate IsRecord() { ExternalRecord? || PreparationRecord? || Intent? || RetainedRecord? }
  }

  /** selector: the selector directory is there, and with it every name but the owner record.
      twice: the records that still have their staging link beside their name, and so two links. */
  datatype Disk = Disk(canonical: Trio, external: Trio, selector: bool, files: map<Name, Bytes>, twice: set<Name>) {
    function With(n: Name, data: Bytes): Disk { this.(files := files[n := data]) }

    function Linked(n: Name, data: Bytes): Disk { With(n, data).(twice := twice + {n}) }
  }

  predicate IsPrefix(a: Bytes, b: Bytes) { a <= b }

  function Expected(d: Disk, c: Copy): Bytes {
    match c
    case PredecessorRequest => d.canonical.request
    case PredecessorReceipt => d.canonical.receipt
    case CandidateRequest => d.external.request
    case CandidateReceipt => d.external.receipt
    case StagedRequest => d.external.request
    case StagedReceipt => d.external.receipt
  }

  function SourceOf(d: Disk, side: Side): Tree {
    match side case PredecessorSource => d.canonical.source case CandidateSource => d.external.source
  }

  /** The captured facts that every check compares with, and the bytes of the signed records. */
  datatype Captured = Captured(canonical: Trio, external: Trio, record: Bytes, intent: Bytes, retained: Bytes) {
    function Signed(n: Name): Bytes
      requires n.IsRecord()
    {
      if n.Intent? then intent else if n.RetainedRecord? then retained else record
    }
  }

  // ----- the checks

  /** regular: the record is there with the expected bytes and one link. */
  predicate ReadsAs(d: Disk, n: Name, data: Bytes) { n in d.files && d.files[n] == data && n !in d.twice }

  /** Both preparation records, where the selector has its own one. */
  predicate RecordsRead(c: Captured, d: Disk) {
    && ReadsAs(d, ExternalRecord, c.record)
    && (PreparationRecord in d.files ==> ReadsAs(d, PreparationRecord, c.record))
  }

  /** _verify_preparation: the records, both trios, no later member, every copy a prefix of its source.
      retained: the retained record is known to the object. */
  predicate VerifyPreparation(c: Captured, d: Disk, retained: bool) {
    && d.canonical == c.canonical && d.external == c.external && RecordsRead(c, d)
    && (forall n :: n in d.files ==> !n.Later? && EntryAllowed(d, n))
    && (Intent in d.files ==> ReadsAs(d, Intent, c.intent))
    && (retained ==> ReadsAs(d, RetainedRecord, c.retained))
  }

  /** resume: with an intent on disk it reads the intent and the complete archives and leaves the preparation
      road; without one it reads the retained record, if there is one, and runs the check above. */
  predicate ResumeAccepts(c: Captured, d: Disk) {
    if Intent in d.files then
      && d.canonical == c.canonical && d.external == c.external && RecordsRead(c, d)
      && ReadsAs(d, Intent, c.intent) && Archived(d)
    else
      VerifyPreparation(c, d, RetainedRecord in d.files)
  }

  /** What both checks read of the records, whatever the disk: signed bytes, and one link each. */
  lemma AcceptedRecordsAreSigned(c: Captured, d: Disk, retained: bool)
    requires VerifyPreparation(c, d, retained) || ResumeAccepts(c, d)
    ensures ExternalRecord in d.files && d.files[ExternalRecord] == c.record && ExternalRecord !in d.twice
    ensures PreparationRecord in d.files ==>
              d.files[PreparationRecord] == c.record && PreparationRecord !in d.twice
    ensures Intent in d.files ==> d.files[Intent] == c.intent && Intent !in d.twice
    ensures VerifyPreparation(c, d, true) ==>
              && RetainedRecord in d.files && d.files[RetainedRecord] == c.retained && RetainedRecord !in d.twice
    ensures ResumeAccepts(c, d) && Intent !in d.files && RetainedRecord in d.files ==>
              d.files[RetainedRecord] == c.retained && RetainedRecord !in d.twice
    ensures d.canonical == c.canonical && d.external == c.external
  {
    hide EntryAllowed, Archived;
  }

  predicate EntryAllowed(d: Disk, n: Name)
    requires n in d.files
  {
    match n
    case CopyFile(copy) => IsPrefix(d.files[n], Expected(d, copy))
    case TreeFile(side, path) => path in SourceOf(d, side) && IsPrefix(d.files[n], SourceOf(d, side)[path])
    case _ => true
  }

  predicate IsMember(d: Disk, n: Name) { n.CopyFile? || (n.TreeFile? && n.path in SourceOf(d, n.side)) }

  /** The bytes a member must end up with. */
  function Complete(d: Disk, n: Name): Bytes
    requires IsMember(d, n)
  {
    if n.CopyFile? then Expected(d, n.copy) else SourceOf(d, n.side)[n.path]
  }

  /** safe_tree lists every path once. */
  ghost predicate Inventory(paths: seq<string>, tree: Tree) {
    && (forall p :: p in paths <==> p in tree)
    && forall i, j :: 0 <= i < j < |paths| ==> paths[i] != paths[j]
  }

  predicate Contains(d: Disk, c: Copy, data: Bytes) { CopyFile(c) in d.files && d.files[CopyFile(c)] == data }

  /** Every copy is complete: the old inputs under the predecessor names, the new ones under both others. */
  predicate Archived(d: Disk) {
    && Contains(d, PredecessorRequest, d.canonical.request) && Contains(d, PredecessorReceipt, d.canonical.receipt)
    && Contains(d, CandidateRequest, d.external.request) && Contains(d, CandidateReceipt, d.external.receipt)
    && Contains(d, StagedRequest, d.external.request) && Contains(d, StagedReceipt, d.external.receipt)
    && (forall p :: p in d.canonical.source ==>
          TreeFile(PredecessorSource, p) in d.files && d.files[TreeFile(PredecessorSource, p)] == d.canonical.source[p])
    && forall p :: p in d.external.source ==>
         TreeFile(CandidateSource, p) in d.files && d.files[TreeFile(CandidateSource, p)] == d.external.source[p]
  }

  // ----- steps

  datatype Step = Step(before: Disk, after: Disk)

  /** Every state that a stop can leave.  A record with two links is the latest; copies stand under a settled
      preparation record, and an intent over complete copies.  A resumed owner may add the retained record over the
      owner record alone. */
  predicate Stoppable(c: Captured, d: Disk) {
    && d.canonical == c.canonical && d.external == c.external
    && (forall n :: n in d.files ==> !n.Later? && EntryAllowed(d, n))
    && (forall n :: n in d.files && n.IsRecord() ==> d.files[n] == c.Signed(n))
    && (forall n :: n in d.twice ==> n in d.files && n.IsRecord())
    && (forall n :: n in d.files && !n.ExternalRecord? ==> d.selector)
    && (PreparationRecord in d.files || RetainedRecord in d.files ==>
          ExternalRecord in d.files && ExternalRecord !in d.twice)
    && (forall n :: n in d.files && (n.CopyFile? || n.TreeFile? || n.Intent?) ==>
          PreparationRecord in d.files && PreparationRecord !in d.twice)
    && (Intent in d.files ==> Archived(d))
    && (RetainedRecord in d.files ==> PreparationRecord !in d.twice && Intent !in d.twice)
  }

  /** A record is linked beside its staging name. */
  predicate LinksRecord(c: Captured, s: Step, n: Name) {
    && n.IsRecord() && n !in s.before.files && s.before.twice == {}
    && s.after == s.before.Linked(n, c.Signed(n))
  }

  predicate DropsLink(s: Step) { s.before.twice != {} && s.after == s.before.(twice := {}) }

  /** The payload installer makes the selector directory, with files of its own, between prepare and publish. */
  predicate MakesSelector(s: Step) {
    && ExternalRecord in s.before.files && s.before.twice == {} && !s.before.selector
    && s.after == s.before.(selector := true, files := s.after.files)
    && (forall n :: n in s.before.files ==> n in s.after.files && s.after.files[n] == s.before.files[n])
    && forall n :: n in s.after.files ==> n in s.before.files || n.Plan? || n.Other?
  }

  /** A copy is created empty or grows. */
  predicate Writes(s: Step, n: Name, data: Bytes) {
    && IsMember(s.before, n) && s.before.twice == {} && s.after == s.before.With(n, data)
    && IsPrefix(if n in s.before.files then s.before.files[n] else [], data)
    && IsPrefix(data, Complete(s.before, n))
  }

  ghost predicate StepIsSafe(c: Captured, s: Step) {
    && Stoppable(c, s.before) && Stoppable(c, s.after)
    && ((exists n :: LinksRecord(c, s, n)) || DropsLink(s) || MakesSelector(s)
        || (exists n, data :: Writes(s, n, data)))
  }

  ghost predicate Recorded(c: Captured, steps: seq<Step>) {
    forall i :: 0 <= i < |steps| ==> StepIsSafe(c, steps[i])
  }

  /** The check in preparation accepts a stop exactly when the owner record is there and no record that it reads
      has two links. */
  lemma VerifyIff(c: Captured, d: Disk, retained: bool)
    requires Stoppable(c, d)
    ensures VerifyPreparation(c, d, retained)
            <==> && ExternalRecord in d.files && (retained ==> RetainedRecord in d.files)
                 && (forall n :: n in d.twice ==> n.RetainedRecord? && !retained)
  {
  }

  /** resume accepts a stop exactly when the owner record is there and no record has two links; a retained record
      beside an intent is not read. */
  lemma ResumeIff(c: Captured, d: Disk)
    requires Stoppable(c, d)
    ensures ResumeAccepts(c, d)
            <==> ExternalRecord in d.files && forall n :: n in d.twice ==> n.RetainedRecord? && Intent in d.files
  {
    hide Archived, EntryAllowed;
  }

  /** Over every run: once the owner record is linked, the step after which resume refuses is the link of a
      record whose staging link then stayed. */
  lemma RefusedStopIff(c: Captured, steps: seq<Step>, i: nat)
    requires Recorded(c, steps) && i < |steps|
    ensures !ResumeAccepts(c, steps[i].after)
            <==> exists n :: LinksRecord(c, steps[i], n) && (n.RetainedRecord? ==> Intent !in steps[i].after.files)
  {
    hide Archived, EntryAllowed, ResumeAccepts;
    var s := steps[i];
    assert StepIsSafe(c, s);
    ResumeIff(c, s.after);
    if n :| LinksRecord(c, s, n) {
      assert n in s.after.twice;
    } else if DropsLink(s) {
      var n :| n in s.before.twice;
    } else if !MakesSelector(s) {
      var n, data :| Writes(s, n, data);
      assert PreparationRecord in s.after.files by { assert n in s.after.files; }
    }
  }

  class Preparation {
    const captured: Captured
    var disk: Disk
    var retained: bool                  // the retained record is written or was read
    ghost var steps: seq<Step>
    ghost var refusals: nat

    ghost predicate Sound()
      reads this
    {
      && Stoppable(captured, disk) && Recorded(captured, steps)
      && (retained ==> RetainedRecord in disk.files)
    }

    /** The preparation record is settled, and nothing is decided yet. */
    ghost predicate Copying()
      reads this
    {
      && Sound() && PreparationRecord in disk.files && disk.twice == {} && !retained
      && Intent !in disk.files && RetainedRecord !in disk.files
    }

    /** Captured: nothing of the transition is on disk. */
    constructor (captured: Captured, disk: Disk)
      requires disk.canonical == captured.canonical && disk.external == captured.external && disk.twice == {}
      requires (forall n :: n in disk.files ==> n.Plan? || n.Other?) && (disk.files != map[] ==> disk.selector)
      ensures Sound() && this.disk == disk && this.captured == captured && !retained && steps == [] && refusals == 0
    {
      this.captured, this.disk, retained := captured, disk, false;
      steps, refusals := [], 0;
    }

    /** resume on the preparation road, where it accepts. */
    constructor Resume(captured: Captured, disk: Disk)
      requires Stoppable(captured, disk) && ResumeAccepts(captured, disk) && Intent !in disk.files
      ensures Sound() && this.disk == disk && this.captured == captured && steps == [] && refusals == 0
      ensures retained <==> RetainedRecord in disk.files
    {
      this.captured, this.disk, retained := captured, disk, RetainedRecord in disk.files;
      steps, refusals := [], 0;
    }

    method Proceed() returns (ok: bool)
      modifies this`refusals
      ensures refusals == if ok then old(refusals) else old(refusals) + 1
    {
      ok := *;
      if !ok { refusals := refusals + 1; }
    }

    /** One durable operation. */
    method Perform(after: Disk)
      requires Sound() && StepIsSafe(captured, Step(disk, after)) && (retained ==> RetainedRecord in after.files)
      modifies this`disk, this`steps
      ensures Sound() && disk == after && steps == old(steps) + [Step(old(disk), after)]
    {
      steps := steps + [Step(disk, after)];
      disk := after;
    }

    /** atomic with create_only: the link, then the unlink of the staging name, which is tried after a failure
        too.  `linked`: the record appeared. */
    method CreateRecord(n: Name) returns (ok: bool, ghost linked: bool)
      requires Sound() && disk.twice == {} && n.IsRecord()
      requires n.ExternalRecord? || ExternalRecord in disk.files
      requires n.ExternalRecord? || disk.selector
      requires n.PreparationRecord? || n.Intent? ==> RetainedRecord !in disk.files
      requires n.Intent? ==> Archived(disk) && PreparationRecord in disk.files
      modifies this`disk, this`steps, this`refusals
      ensures Sound() && old(steps) <= steps
      ensures var data := captured.Signed(n);
              if linked then disk == old(disk).With(n, data) || disk == old(disk).Linked(n, data)
              else disk == old(disk) && steps == old(steps)
      ensures linked ==> n !in old(disk).files
      ensures linked && disk.twice != {} ==> !ok && steps == old(steps) + [Step(old(disk), disk)]
      ensures ok ==> linked && refusals == old(refusals) && disk == old(disk).With(n, captured.Signed(n))
      ensures !ok ==> refusals > old(refusals) || (n in old(disk).files && refusals == old(refusals))
    {
      linked := false;
      ok := Proceed();
      if !ok { return; }
      if n in disk.files { return false, false; }
      linked := true;
      var data := captured.Signed(n);
      RecordIsSafe(captured, disk, n);
      Perform(disk.Linked(n, data));
      ok := Proceed();
      var unlinked := Proceed();
      if !unlinked { return false, true; }
      assert disk.(twice := {}) == old(disk).With(n, data);
      Perform(disk.(twice := {}));
      var synced := Proceed();
      ok := ok && synced;
    }

    /** prepare: the owner record beside the external inputs, before any payload is placed. */
    method Prepare() returns (ok: bool)
      requires Sound() && !retained && forall n :: n in disk.files ==> n.Plan? || n.Other?
      modifies this`disk, this`steps, this`refusals
      ensures Sound() && old(steps) <= steps
      ensures ok ==> disk == old(disk).With(ExternalRecord, captured.record)
      ensures if ok then refusals == old(refusals) else refusals > old(refusals)
    {
      hide Archived, EntryAllowed, Recorded;
      OnlyRecordsAreTwice(captured, disk);
      ghost var linked;
      ok, linked := CreateRecord(ExternalRecord);
    }

    /** The payload installer runs, or fails before it makes the selector. */
    method PlacePayload(own: map<Name, Bytes>) returns (ok: bool)
      requires Sound() && ExternalRecord in disk.files && disk.twice == {} && !disk.selector
      requires forall n :: n in own ==> n.Plan? || n.Other?
      modifies this`disk, this`steps, this`refusals
      ensures Sound() && old(steps) <= steps
      ensures disk == if ok then old(disk).(selector := true, files := old(disk).files + own) else old(disk)
      ensures if ok then refusals == old(refusals) else refusals > old(refusals)
    {
      hide Stoppable, Recorded, Archived, EntryAllowed, StepIsSafe;
      ok := Proceed();
      if !ok { return; }
      var after := disk.(selector := true, files := disk.files + own);
      SelectorIsSafe(captured, disk, own);
      Perform(after);
    }

    /** The first lines of publish: no member and no other record may be there yet; then the preparation record. */
    method Begin() returns (ok: bool)
      requires Sound()
      modifies this`disk, this`steps, this`refusals
      ensures Sound() && old(steps) <= steps
      ensures ok ==> Copying() && forall n :: n in disk.files ==> !n.CopyFile? && !n.TreeFile?
      ensures ok ==> disk == old(disk).With(PreparationRecord, captured.record)
      ensures ok ==> refusals == old(refusals)
      ensures refusals == old(refusals) ==> (ok <==> old(ReadsAs(disk, ExternalRecord, captured.record) && disk.selector
                  && forall n :: n in disk.files ==> n.ExternalRecord? || n.Plan? || n.Other?))
    {
      hide Archived, EntryAllowed, Recorded;
      ok := Proceed();
      if !ok { return; }
      if !ReadsAs(disk, ExternalRecord, captured.record) || !disk.selector { return false; }
      if exists n :: n in disk.files && !n.ExternalRecord? && !n.Plan? && !n.Other? { return false; }
      OnlyRecordsAreTwice(captured, disk);
      ghost var linked;
      ok, linked := CreateRecord(PreparationRecord);
    }

    /** One write to one member. */
    method Write(n: Name, data: Bytes)
      requires Copying() && IsMember(disk, n) && IsPrefix(data, Complete(disk, n))
      requires IsPrefix(if n in disk.files then disk.files[n] else [], data)
      modifies this`disk, this`steps
      ensures Copying() && disk == old(disk).With(n, data) && steps == old(steps) + [Step(old(disk), disk)]
    {
      WriteIsSafe(captured, disk, n, data);
      Perform(disk.With(n, data));
    }

    /** _prepare_file: create exclusively, then write until nothing is left. */
    method PrepareFile(n: Name) returns (ok: bool)
      requires Copying() && IsMember(disk, n) && n !in disk.files
      modifies this`disk, this`steps, this`refusals
      ensures Copying() && old(steps) <= steps
      ensures forall m :: m in old(disk).files ==> m in disk.files && disk.files[m] == old(disk).files[m]
      ensures forall m :: m in disk.files && m != n ==> m in old(disk).files
      ensures disk.canonical == old(disk).canonical && disk.external == old(disk).external
      ensures ok ==> disk == old(disk).With(n, Complete(disk, n))
      ensures if ok then refusals == old(refusals) else refusals > old(refusals)
    {
      hide Stoppable, Recorded, VerifyPreparation;
      ok := Proceed();
      if !ok { return; }
      CopyingIsAccepted();
      if !VerifyPreparation(captured, disk, retained) { return false; }
      ok := Fill(n);
      if !ok { return; }
      ok := Proceed();
      if !ok { return; }
      CopyingIsAccepted();
      if !VerifyPreparation(captured, disk, retained) { return false; }
    }

    /** The file is created, and written until nothing is left. */
    method Fill(n: Name) returns (ok: bool)
      requires Copying() && IsMember(disk, n) && n !in disk.files
      modifies this`disk, this`steps, this`refusals
      ensures Copying() && old(steps) <= steps
      ensures disk == old(disk).(files := disk.files) && n in disk.files
      ensures disk.files == old(disk).files[n := disk.files[n]]
      ensures ok ==> disk == old(disk).With(n, Complete(disk, n))
      ensures if ok then refusals == old(refusals) else refusals > old(refusals)
    {
      hide Stoppable, Recorded;
      var data := Complete(disk, n);
      Write(n, []);
      var written := 0;
      while written < |data|
        invariant 0 <= written <= |data| && Copying() && old(steps) <= steps
        invariant disk == old(disk).With(n, data[..written]) && refusals == old(refusals)
        decreases |data| - written
      {
        ok := Proceed();
        if !ok { return; }
        var count :| 1 <= count <= |data| - written;
        Write(n, data[..written + count]);
        written := written + count;
      }
      assert data[..|data|] == data;
      ok := true;
    }

    lemma CopyingIsAccepted()
      requires Copying()
      ensures VerifyPreparation(captured, disk, retained)
    {
      VerifyIff(captured, disk, retained);
    }

    /** _prepare_tree: every inventoried path in turn. */
    method PrepareTree(side: Side, paths: seq<string>) returns (ok: bool)
      requires Copying() && Inventory(paths, SourceOf(disk, side))
      requires forall p :: p in paths ==> TreeFile(side, p) !in disk.files
      modifies this`disk, this`steps, this`refusals
      ensures Copying() && old(steps) <= steps
      ensures forall m :: m in disk.files && !(m.TreeFile? && m.side == side) ==>
                            m in old(disk).files && disk.files[m] == old(disk).files[m]
      ensures forall m :: m in old(disk).files ==> m in disk.files && disk.files[m] == old(disk).files[m]
      ensures disk.canonical == old(disk).canonical && disk.external == old(disk).external
      ensures ok ==> forall p :: p in SourceOf(disk, side) ==>
                       TreeFile(side, p) in disk.files && disk.files[TreeFile(side, p)] == SourceOf(disk, side)[p]
      ensures if ok then refusals == old(refusals) else refusals > old(refusals)
    {
      hide Copying;
      ok := true;
      for i := 0 to |paths|
        invariant Copying() && old(steps) <= steps && refusals == old(refusals) && ok
        invariant disk.canonical == old(disk).canonical && disk.external == old(disk).external
        invariant forall m :: m in disk.files && !(m.TreeFile? && m.side == side) ==>
                                m in old(disk).files && disk.files[m] == old(disk).files[m]
        invariant forall m :: m in old(disk).files ==> m in disk.files && disk.files[m] == old(disk).files[m]
        invariant forall k :: i <= k < |paths| ==> TreeFile(side, paths[k]) !in disk.files
        invariant forall k :: 0 <= k < i ==>
                    TreeFile(side, paths[k]) in disk.files &&
                    disk.files[TreeFile(side, paths[k])] == SourceOf(disk, side)[paths[k]]
      {
        assert paths[i] in paths;
        assert forall k :: i < k < |paths| ==> paths[k] != paths[i];
        ghost var before := disk;
        var written := PrepareFile(TreeFile(side, paths[i]));
        if !written { return false; }
        assert disk.files == before.files[TreeFile(side, paths[i]) := SourceOf(disk, side)[paths[i]]];
      }
      forall p | p in SourceOf(disk, side)
        ensures TreeFile(side, p) in disk.files && disk.files[TreeFile(side, p)] == SourceOf(disk, side)[p]
      {
        assert p in paths;
      }
    }

    /** The archives that the intent will bind: both trees, then the six files, in this order. */
    method PrepareAll(oldPaths: seq<string>, newPaths: seq<string>) returns (ok: bool)
      requires Copying() && Inventory(oldPaths, disk.canonical.source) && Inventory(newPaths, disk.external.source)
      requires forall n :: n in disk.files ==> !n.CopyFile? && !n.TreeFile?
      modifies this`disk, this`steps, this`refusals
      ensures Copying() && old(steps) <= steps
      ensures ok ==> Archived(disk) && disk.canonical == captured.canonical && disk.external == captured.external
      ensures !ok ==> refusals > old(refusals)
      ensures ok ==> var f := disk.files;
              && f[CopyFile(PredecessorRequest)] == captured.canonical.request
              && f[CopyFile(PredecessorReceipt)] == captured.canonical.receipt
              && f[CopyFile(CandidateRequest)] == f[CopyFile(StagedRequest)] == captured.external.request
              && f[CopyFile(CandidateReceipt)] == f[CopyFile(StagedReceipt)] == captured.external.receipt
    {
      TriosAreCaptured();
      hide EntryAllowed, Copying, Expected, Archived;
      ok := PrepareTree(PredecessorSource, oldPaths);
      if !ok { return; }
      ok := PrepareTree(CandidateSource, newPaths);
      if !ok { return; }
      ok := PrepareCopies();
      if ok {
        CompleteIsArchived(disk);
        ArchivedByName(disk);
      }
    }

    lemma TriosAreCaptured()
      requires Copying()
      ensures disk.canonical == captured.canonical && disk.external == captured.external
    {
    }

    /** The six single-file copies. */
    method PrepareCopies() returns (ok: bool)
      requires Copying() && forall n :: n in disk.files ==> !n.CopyFile?
      modifies this`disk, this`steps, this`refusals
      ensures Copying() && old(steps) <= steps
      ensures forall n :: n in old(disk).files ==> n in disk.files && disk.files[n] == old(disk).files[n]
      ensures disk.canonical == old(disk).canonical && disk.external == old(disk).external
      ensures ok ==> forall c: Copy :: CopyFile(c) in disk.files && disk.files[CopyFile(c)] == Expected(disk, c)
      ensures if ok then refusals == old(refusals) else refusals > old(refusals)
    {
      hide Copying, EntryAllowed, Expected;
      ok := true;
      var copies := [PredecessorRequest, PredecessorReceipt, CandidateRequest, CandidateReceipt, StagedRequest,
                     StagedReceipt];
      for i := 0 to |copies|
        invariant Copying() && old(steps) <= steps && ok && refusals == old(refusals)
        invariant disk.canonical == old(disk).canonical && disk.external == old(disk).external
        invariant forall n :: n in old(disk).files ==> n in disk.files && disk.files[n] == old(disk).files[n]
        invariant forall k :: i <= k < |copies| ==> CopyFile(copies[k]) !in disk.files
        invariant forall k :: 0 <= k < i ==>
                    CopyFile(copies[k]) in disk.files &&
                    disk.files[CopyFile(copies[k])] == Expected(disk, copies[k])
      {
        ghost var before := disk;
        var written := PrepareFile(CopyFile(copies[i]));
        if !written { return false; }
        SameExpectations(before, disk);
        assert disk.files == before.files[CopyFile(copies[i]) := Expected(disk, copies[i])];
      }
      forall c: Copy ensures CopyFile(c) in disk.files && disk.files[CopyFile(c)] == Expected(disk, c) {
        assert copies[match c
                      case PredecessorRequest => 0 case PredecessorReceipt => 1 case CandidateRequest => 2
                      case CandidateReceipt => 3 case StagedRequest => 4 case StagedReceipt => 5] == c;
      }
    }

    /** The signed intent over the complete copies. */
    method WriteIntent() returns (ok: bool)
      requires Copying() && Archived(disk)
      modifies this`disk, this`steps, this`refusals
      ensures Sound() && old(steps) <= steps && !retained
      ensures ok ==> disk == old(disk).With(Intent, captured.intent) && Archived(disk)
      ensures disk.canonical == captured.canonical && disk.external == captured.external
      ensures Intent in disk.twice ==> !ok && !VerifyPreparation(captured, disk, false)
      ensures Intent !in disk.twice ==> VerifyPreparation(captured, disk, false)
      ensures if ok then refusals == old(refusals) else refusals > old(refusals)
      ensures ok ==> var f := disk.files;
              && f[CopyFile(PredecessorRequest)] == captured.canonical.request
              && f[CopyFile(PredecessorReceipt)] == captured.canonical.receipt
              && f[CopyFile(CandidateRequest)] == f[CopyFile(StagedRequest)] == captured.external.request
              && f[CopyFile(CandidateReceipt)] == f[CopyFile(StagedReceipt)] == captured.external.receipt
    {
      hide Archived, EntryAllowed, VerifyPreparation, Recorded;
      ghost var linked;
      ArchivedByName(disk);
      ok, linked := CreateRecord(Intent);
      VerifyIff(captured, disk, false);
    }

    /** restore while the object is in preparation, with the intent on disk or not: verify, then add the signed
        retained record to the selector and nothing else.  A record that an earlier object retained is only
        verified. */
    method Retain() returns (ok: bool)
      requires Sound()
      modifies this`disk, this`steps, this`refusals, this`retained
      ensures Sound() && old(steps) <= steps
      ensures var d := old(disk).With(RetainedRecord, captured.retained);
              disk == old(disk) || disk == d || (disk == old(disk).Linked(RetainedRecord, captured.retained) && !ok)
      ensures ok ==> retained && disk == old(disk).With(RetainedRecord, captured.retained)
      ensures ok ==> VerifyPreparation(captured, disk, true) && refusals == old(refusals)
      ensures refusals == old(refusals) ==>
                (ok <==> old(VerifyPreparation(captured, disk, retained) && disk.selector
                             && (retained || RetainedRecord !in disk.files)))
    {
      hide Archived, EntryAllowed, VerifyPreparation, Recorded;
      VerifyIff(captured, disk, retained);
      ok := Proceed();
      if !ok { return; }
      if !VerifyPreparation(captured, disk, retained) || !disk.selector { return false; }
      if !retained {
        if RetainedRecord in disk.files { return false; }
        assert disk.twice == {};
        ghost var linked;
        ok, linked := CreateRecord(RetainedRecord);
        if !ok { return; }
        retained := true;
      }
      VerifyIff(captured, disk, true);
      assert disk == old(disk).With(RetainedRecord, captured.retained);
      ok := Proceed();
    }
  }

  lemma SameExpectations(d: Disk, e: Disk)
    requires d.canonical == e.canonical && d.external == e.external
    ensures forall c: Copy :: Expected(d, c) == Expected(e, c)
  {
  }

  lemma OnlyRecordsAreTwice(c: Captured, d: Disk)
    requires Stoppable(c, d) && forall n :: n in d.files && n.IsRecord() ==> n !in d.twice
    ensures d.twice == {}
  {
  }

  lemma RecordIsSafe(c: Captured, d: Disk, n: Name)
    requires Stoppable(c, d) && d.twice == {} && n.IsRecord() && n !in d.files
    requires n.ExternalRecord? || ExternalRecord in d.files
    requires n.ExternalRecord? || d.selector
    requires n.PreparationRecord? || n.Intent? ==> RetainedRecord !in d.files
    requires n.Intent? ==> Archived(d) && PreparationRecord in d.files
    ensures var e := d.Linked(n, c.Signed(n));
            StepIsSafe(c, Step(d, e)) && StepIsSafe(c, Step(e, e.(twice := {})))
  {
    hide EntryAllowed, Archived;
    var e := d.Linked(n, c.Signed(n));
    assert LinksRecord(c, Step(d, e), n) && n in e.twice && DropsLink(Step(e, e.(twice := {})));
    RecordKeepsCopies(d, e, n);
    RecordKeepsCopies(d, e.(twice := {}), n);
  }

  lemma RecordKeepsCopies(d: Disk, e: Disk, n: Name)
    requires n.IsRecord() && n !in d.files && n in e.files && e.files == d.files[n := e.files[n]]
    requires d.canonical == e.canonical && d.external == e.external
    ensures forall m :: m in d.files && EntryAllowed(d, m) ==> EntryAllowed(e, m)
    ensures EntryAllowed(e, n) && (Archived(d) ==> Archived(e))
  {
  }

  lemma SelectorIsSafe(c: Captured, d: Disk, own: map<Name, Bytes>)
    requires Stoppable(c, d) && ExternalRecord in d.files && d.twice == {} && !d.selector
    requires forall n :: n in own ==> n.Plan? || n.Other?
    ensures StepIsSafe(c, Step(d, d.(selector := true, files := d.files + own)))
  {
    hide Archived;
    var e := d.(selector := true, files := d.files + own);
    assert forall n :: n in d.files ==> n.ExternalRecord?;
    assert forall n :: n in e.files ==> EntryAllowed(e, n);
    assert MakesSelector(Step(d, e));
  }

  lemma WriteIsSafe(c: Captured, d: Disk, n: Name, data: Bytes)
    requires Stoppable(c, d) && Writes(Step(d, d.With(n, data)), n, data) && PreparationRecord in d.files
    requires Intent !in d.files
    ensures StepIsSafe(c, Step(d, d.With(n, data)))
  {
    var e := d.With(n, data);
    assert forall m :: m in e.files ==> EntryAllowed(e, m) by {
      assert forall m :: m in d.files ==> EntryAllowed(d, m);
    }
  }

  // ----- runs

  /** The steps lead from the one state to the other. */
  ghost predicate Runs(c: Captured, from: Disk, steps: seq<Step>, to: Disk) {
    && Recorded(c, steps)
    && (if steps == [] then from == to else steps[0].before == from && steps[|steps| - 1].after == to)
    && forall i :: 0 < i < |steps| ==> steps[i - 1].after == steps[i].before
  }

  lemma RunsOn(c: Captured, from: Disk, steps: seq<Step>, s: Step)
    requires Runs(c, from, steps, s.before) && StepIsSafe(c, s)
    ensures Runs(c, from, steps + [s], s.after)
  {
  }

  /** From a settled preparation record every set of missing copies can be written. */
  lemma WritingRun(c: Captured, from: Disk, before: seq<Step>, d: Disk, missing: set<Name>)
    returns (steps: seq<Step>, e: Disk)
    requires Runs(c, from, before, d) && Stoppable(c, d) && d.twice == {} && PreparationRecord in d.files
    requires Intent !in d.files && RetainedRecord !in d.files
    requires forall n :: n in missing ==> IsMember(d, n) && n !in d.files
    ensures Runs(c, from, steps, e) && Stoppable(c, e) && e.twice == {} && PreparationRecord in e.files
    ensures Intent !in e.files && RetainedRecord !in e.files
    ensures e.canonical == d.canonical && e.external == d.external && e.selector == d.selector
    ensures forall n :: n in missing ==> n in e.files && e.files[n] == Complete(d, n)
    ensures forall n :: n in d.files ==> n in e.files && e.files[n] == d.files[n]
    decreases |missing|
  {
    hide Stoppable, Runs, Archived, EntryAllowed, IsMember, Complete;
    if missing == {} { return before, d; }
    var n :| n in missing;
    steps, e := MemberRun(c, from, before, d, n);
    var written := e;
    SameMembers(d, written);
    steps, e := WritingRun(c, from, steps, written, missing - {n});
  }

  lemma SameMembers(d: Disk, e: Disk)
    requires d.canonical == e.canonical && d.external == e.external
    ensures forall n :: IsMember(d, n) <==> IsMember(e, n)
    ensures forall n :: IsMember(d, n) ==> !n.IsRecord()
    ensures forall n :: IsMember(d, n) ==> Complete(d, n) == Complete(e, n)
  {
  }

  /** The run goes on: one member is created empty and then written. */
  lemma MemberRun(c: Captured, from: Disk, before: seq<Step>, d: Disk, n: Name) returns (steps: seq<Step>, e: Disk)
    requires Runs(c, from, before, d) && Stoppable(c, d) && d.twice == {} && PreparationRecord in d.files
    requires Intent !in d.files && IsMember(d, n) && n !in d.files
    ensures Runs(c, from, steps, e) && Stoppable(c, e) && e == d.With(n, Complete(d, n))
  {
    hide Stoppable, Runs, Archived, EntryAllowed;
    var created := d.With(n, []);
    e := created.With(n, Complete(d, n));
    assert e == d.With(n, Complete(d, n));
    WriteIsSafe(c, d, n, []);
    WriteIsSafe(c, created, n, Complete(d, n));
    steps := before + [Step(d, created)];
    RunsOn(c, from, before, Step(d, created));
    RunsOn(c, from, steps, Step(created, e));
    steps := steps + [Step(created, e)];
  }

  /** The run goes on: the record is linked, and then settled. */
  lemma RecordRun(c: Captured, from: Disk, before: seq<Step>, d: Disk, n: Name)
    returns (half: seq<Step>, linked: Disk, steps: seq<Step>, e: Disk)
    requires Runs(c, from, before, d) && Stoppable(c, d) && d.twice == {} && n.IsRecord() && n !in d.files
    requires n.ExternalRecord? || ExternalRecord in d.files
    requires n.ExternalRecord? || d.selector
    requires n.PreparationRecord? || n.Intent? ==> RetainedRecord !in d.files
    requires n.Intent? ==> Archived(d) && PreparationRecord in d.files
    ensures Runs(c, from, half, linked) && Stoppable(c, linked) && linked == d.Linked(n, c.Signed(n))
    ensures Runs(c, from, steps, e) && Stoppable(c, e) && e == d.With(n, c.Signed(n))
  {
    hide Stoppable, Runs, Archived, EntryAllowed;
    linked, e := d.Linked(n, c.Signed(n)), d.With(n, c.Signed(n));
    RecordIsSafe(c, d, n);
    assert linked.(twice := {}) == e;
    half := before + [Step(d, linked)];
    steps := half + [Step(linked, e)];
    RunsOn(c, from, before, Step(d, linked));
    RunsOn(c, from, half, Step(linked, e));
  }

  /** The run goes on: the selector appears. */
  lemma SelectorRun(c: Captured, from: Disk, before: seq<Step>, d: Disk) returns (steps: seq<Step>, e: Disk)
    requires Runs(c, from, before, d) && Stoppable(c, d) && d.twice == {} && ExternalRecord in d.files && !d.selector
    ensures Runs(c, from, steps, e) && Stoppable(c, e) && e == d.(selector := true)
  {
    hide Stoppable, Runs, Archived, EntryAllowed;
    e := d.(selector := true);
    assert d.files + map[] == d.files;
    SelectorIsSafe(c, d, map[]);
    steps := before + [Step(d, e)];
    RunsOn(c, from, before, Step(d, e));
  }

  /** Every record can be the one that a stop leaves with two links, and resume refuses that stop: from any
      captured state, by the operations of preparation. */
  lemma EveryRecordCanBeRefused(c: Captured, d: Disk, n: Name)
    requires d.canonical == c.canonical && d.external == c.external && d.twice == {} && n.IsRecord()
    requires (forall m :: m in d.files ==> m.Plan? || m.Other?) && (d.files != map[] ==> d.selector)
    ensures exists steps, stop :: Runs(c, d, steps, stop) && n in stop.twice && !ResumeAccepts(c, stop)
  {
    hide Stoppable, Runs, Archived, EntryAllowed, ResumeAccepts;
    StartIsStoppable(c, d);
    var half, stop, steps, e := RecordRun(c, d, [], d, ExternalRecord);
    if !n.ExternalRecord? {
      if !e.selector { steps, e := SelectorRun(c, d, steps, e); }
      half, stop, steps, e := RecordRun(c, d, steps, e, PreparationRecord);
      if n.Intent? {
        steps, e := WritingRun(c, d, steps, e, Members(e));
        AllWrittenIsArchived(e);
      }
      if !n.PreparationRecord? { half, stop, steps, e := RecordRun(c, d, steps, e, n); }
    }
    assert n in stop.twice;
    ResumeIff(c, stop);
    assert Runs(c, d, half, stop);
  }

  lemma StartIsStoppable(c: Captured, d: Disk)
    requires d.canonical == c.canonical && d.external == c.external && d.twice == {}
    requires (forall m :: m in d.files ==> m.Plan? || m.Other?) && (d.files != map[] ==> d.selector)
    ensures Stoppable(c, d) && Runs(c, d, [], d)
  {
  }

  /** All members: the six copies and both trees. */
  function Members(d: Disk): set<Name> {
    (set k | k in {PredecessorRequest, PredecessorReceipt, CandidateRequest, CandidateReceipt, StagedRequest,
                   StagedReceipt} :: CopyFile(k))
    + (set p | p in d.canonical.source :: TreeFile(PredecessorSource, p))
    + (set p | p in d.external.source :: TreeFile(CandidateSource, p))
  }

  lemma AllWrittenIsArchived(d: Disk)
    requires forall n :: n in Members(d) ==> n in d.files && IsMember(d, n) && d.files[n] == Complete(d, n)
    ensures Archived(d)
  {
    hide Members, Expected;
    AllAreMembers(d);
    ExpectedByName(d);
  }

  lemma CompleteIsArchived(d: Disk)
    requires forall k: Copy :: CopyFile(k) in d.files && d.files[CopyFile(k)] == Expected(d, k)
    requires forall p :: p in SourceOf(d, PredecessorSource) ==>
               && TreeFile(PredecessorSource, p) in d.files
               && d.files[TreeFile(PredecessorSource, p)] == SourceOf(d, PredecessorSource)[p]
    requires forall p :: p in SourceOf(d, CandidateSource) ==>
               && TreeFile(CandidateSource, p) in d.files
               && d.files[TreeFile(CandidateSource, p)] == SourceOf(d, CandidateSource)[p]
    ensures Archived(d)
  {
    hide Expected;
    ExpectedByName(d);
  }

  lemma ArchivedByName(d: Disk)
    requires Archived(d)
    ensures forall k: Copy :: CopyFile(k) in d.files
    ensures d.files[CopyFile(PredecessorRequest)] == d.canonical.request
    ensures d.files[CopyFile(PredecessorReceipt)] == d.canonical.receipt
    ensures d.files[CopyFile(CandidateRequest)] == d.files[CopyFile(StagedRequest)] == d.external.request
    ensures d.files[CopyFile(CandidateReceipt)] == d.files[CopyFile(StagedReceipt)] == d.external.receipt
  {
    forall k: Copy ensures CopyFile(k) in d.files {
      match k
      case PredecessorRequest => case PredecessorReceipt => case CandidateRequest =>
      case CandidateReceipt => case StagedRequest => case StagedReceipt =>
    }
  }

  lemma AllAreMembers(d: Disk)
    ensures forall k: Copy :: CopyFile(k) in Members(d)
    ensures forall p :: p in d.canonical.source ==> TreeFile(PredecessorSource, p) in Members(d)
    ensures forall p :: p in d.external.source ==> TreeFile(CandidateSource, p) in Members(d)
  {
    forall k: Copy ensures CopyFile(k) in Members(d) {
      match k
      case PredecessorRequest => case PredecessorReceipt => case CandidateRequest =>
      case CandidateReceipt => case StagedRequest => case StagedReceipt =>
    }
  }

  lemma ExpectedByName(d: Disk)
    ensures Expected(d, PredecessorRequest) == d.canonical.request
    ensures Expected(d, PredecessorReceipt) == d.canonical.receipt
    ensures Expected(d, CandidateRequest) == Expected(d, StagedRequest) == d.external.request
    ensures Expected(d, CandidateReceipt) == Expected(d, StagedReceipt) == d.external.receipt
  {
  }

  // ----- stops

  /** Every stop leaves both trios as captured and every copy a prefix of its source. */
  lemma StoppedPreparation(c: Captured, steps: seq<Step>, i: nat)
    requires Recorded(c, steps) && i < |steps|
    ensures var d := steps[i].after;
            && d.canonical == c.canonical && d.external == c.external
            && (forall copy :: CopyFile(copy) in d.files ==>
                  d.files[CopyFile(copy)] <= match copy
                                             case PredecessorRequest => c.canonical.request
                                             case PredecessorReceipt => c.canonical.receipt
                                             case CandidateRequest => c.external.request
                                             case CandidateReceipt => c.external.receipt
                                             case StagedRequest => c.external.request
                                             case StagedReceipt => c.external.receipt)
            && (forall path :: TreeFile(PredecessorSource, path) in d.files ==>
                  path in c.canonical.source && d.files[TreeFile(PredecessorSource, path)] <= c.canonical.source[path])
            && forall path :: TreeFile(CandidateSource, path) in d.files ==>
                 path in c.external.source && d.files[TreeFile(CandidateSource, path)] <= c.external.source[path]
  {
    assert StepIsSafe(c, steps[i]);
  }

  /** A fresh owner after any stop without an intent: refused exactly when the owner record is not there or a
      record has two links.  Otherwise, and unless something raises, the preparation is retained exactly when the
      selector is there. */
  method RetainAfterStop(captured: Captured, ghost earlier: seq<Step>, ghost i: nat, stopped: Disk)
    returns (owner: Preparation?, ok: bool)
    requires Recorded(captured, earlier) && i < |earlier|
    requires stopped == earlier[i].before || stopped == earlier[i].after
    requires Intent !in stopped.files
    ensures owner == null <==> ExternalRecord !in stopped.files || stopped.twice != {}
    ensures owner == null ==> !ok
    ensures owner != null ==> fresh(owner) && owner.Sound() && (ok <==> owner.refusals == 0 && stopped.selector)
    ensures ok ==> owner != null && owner.disk == stopped.With(RetainedRecord, captured.retained)
  {
    hide Archived, EntryAllowed, VerifyPreparation;
    assert StepIsSafe(captured, earlier[i]);
    ResumeIff(captured, stopped);
    VerifyIff(captured, stopped, RetainedRecord in stopped.files);
    assert stopped.twice != {} <==> exists n :: n in stopped.twice;
    if !ResumeAccepts(captured, stopped) { return null, false; }
    var resumed := new Preparation.Resume(captured, stopped);
    ok := resumed.Retain();
    owner := resumed;
  }

  /** The stop that spans the placement of the payload: the owner record alone, with the selector or without. */
  lemma OwnerRecordAloneIsReached(c: Captured, d: Disk)
    requires d.canonical == c.canonical && d.external == c.external && d.twice == {} && d.files == map[] && !d.selector
    ensures var owned := d.With(ExternalRecord, c.record);
            && ResumeAccepts(c, owned) && ResumeAccepts(c, owned.(selector := true))
            && (exists steps :: Runs(c, d, steps, owned)) && exists steps :: Runs(c, d, steps, owned.(selector := true))
  {
    hide Stoppable, Runs, Archived, EntryAllowed, ResumeAccepts;
    StartIsStoppable(c, d);
    var half, stop, steps, e := RecordRun(c, d, [], d, ExternalRecord);
    var more, f := SelectorRun(c, d, steps, e);
    ResumeIff(c, e);
    ResumeIff(c, f);
  }
}
