/** The canonical-input transition: three pairs of old and new objects (source tree, source receipt,
    install request), each moving between four locations under a signed phase journal. */
module InputTransition {

  import opened Wrappers

  /** canonical: the live path.  parked: `predecessor-*-inode`.  staged: `candidate-*-staged`.
      archived: `candidate-source` or `candidate-*-inode`. */
  datatype Location = Canonical | Parked | Staged | Archived

  /** Objects are told apart by device, inode and custody, not by content. */
  datatype Object = Old | New | Foreign

  datatype Kind = Source | Receipt | Request

  /** What one pair's four locations hold. */
  datatype Places = Places(canonical: Option<Object>, parked: Option<Object>, staged: Option<Object>,
                           archived: Option<Object>) {
    function At(l: Location): Option<Object> {
      match l case Canonical => canonical case Parked => parked case Staged => staged case Archived => archived
    }

    predicate Has(l: Location) { At(l).Some? }

    function Put(l: Location, o: Option<Object>): Places {
      match l
      case Canonical => this.(canonical := o)
      case Parked => this.(parked := o)
      case Staged => this.(staged := o)
      case Archived => this.(archived := o)
    }

    function Count(): nat {
      (if canonical.Some? then 1 else 0) + (if parked.Some? then 1 else 0)
      + (if staged.Some? then 1 else 0) + (if archived.Some? then 1 else 0)
    }

    /** rename(2); it overwrites an occupied destination. */
    function Moved(from: Location, to: Location): Places { Put(from, None).Put(to, At(from)) }
  }

  const EMPTY := Places(None, None, None, None)

  /** The old object at one location, the new one at another. */
  function Pair(a: Location, b: Location): Places { EMPTY.Put(a, Some(Old)).Put(b, Some(New)) }

  datatype Phase =
    | Intent | SourcePublished | ReceiptPublished | Published
    | RestoreRequest | RestoreReceipt | Restored

  /** The durable state once the archives are complete; `phase` is what the signed state file says.  A record
      that is created has two links from its link to the unlink of its staging name; it has none while absent. */
  datatype Inputs = Inputs(source: Places, receipt: Places, request: Places, phase: Option<Phase>,
                           intentLinks: nat, stateLinks: nat) {
    function At(k: Kind): Places {
      match k case Source => source case Receipt => receipt case Request => request
    }

    function With(k: Kind, p: Places): Inputs {
      match k
      case Source => this.(source := p)
      case Receipt => this.(receipt := p)
      case Request => this.(request := p)
    }
  }

  // ----- where a pair can be

  /** The life of one pair: staged, old parked, new published; then new archived and old returned,
      from whichever of the first three the return starts. */
  datatype Progress = Waiting | Vacant | Swapped | Withdrawn | Returned

  function LayoutOf(p: Progress): Places {
    match p
    case Waiting => Pair(Canonical, Staged)
    case Vacant => Pair(Parked, Staged)
    case Swapped => Pair(Parked, Canonical)
    case Withdrawn => Pair(Parked, Archived)
    case Returned => Pair(Canonical, Archived)
  }

  /** Both objects exist, each at exactly one location, and nothing else does. */
  ghost predicate Conserved(p: Places) {
    exists a, b: Location :: a != b && p == Pair(a, b)
  }

  predicate InProgress(p: Places) {
    || p == LayoutOf(Waiting) || p == LayoutOf(Vacant) || p == LayoutOf(Swapped)
    || p == LayoutOf(Withdrawn) || p == LayoutOf(Returned)
  }

  /** Where a stop can leave the six objects. */
  predicate Recoverable(d: Inputs) {
    InProgress(d.source) && InProgress(d.receipt) && InProgress(d.request)
  }

  /** How many links a stop can leave to the two records: the state file comes after a settled intent. */
  predicate RecordLinks(d: Inputs) {
    && d.intentLinks <= 2 && d.stateLinks <= 2 && (d.phase.Some? <==> d.stateLinks > 0)
    && (d.stateLinks > 0 ==> d.intentLinks == 1)
  }

  /** The intent is on disk, and no staging link of a record is left. */
  predicate Settled(d: Inputs) { d.intentLinks == 1 && d.stateLinks <= 1 }

  function LayoutFor(phase: Phase, k: Kind): Places {
    match phase
    case Intent => LayoutOf(Waiting)
    case SourcePublished => LayoutOf(if k.Source? then Swapped else Waiting)
    case ReceiptPublished => LayoutOf(if k.Request? then Waiting else Swapped)
    case Published => LayoutOf(Swapped)
    case RestoreRequest => LayoutOf(if k.Request? then Returned else Swapped)
    case RestoreReceipt => LayoutOf(if k.Source? then Swapped else Returned)
    case Restored => LayoutOf(Returned)
  }

  predicate LaidOutFor(phase: Phase, d: Inputs) {
    && d.source == LayoutFor(phase, Source)
    && d.receipt == LayoutFor(phase, Receipt)
    && d.request == LayoutFor(phase, Request)
  }

  // ----- what verify looks at

  predicate Holds(p: Places, l: Location, o: Object) { p.At(l) == Some(o) }

  /** _archives_unchanged: the locations of the private selector. */
  predicate ArchivesUnchanged(phase: Phase, d: Inputs) {
    && FileArchive(d.receipt, phase in {ReceiptPublished, Published, RestoreRequest},
                   phase in {RestoreReceipt, Restored})
    && FileArchive(d.request, phase.Published?, phase in {RestoreRequest, RestoreReceipt, Restored})
    && SourceArchive(phase, d.source)
  }

  predicate SourceArchive(phase: Phase, p: Places) {
    match phase
    case Intent => Holds(p, Staged, New) && !p.Has(Parked) && !p.Has(Archived)
    case Restored => !p.Has(Parked) && !p.Has(Staged) && Holds(p, Archived, New)
    case _ => !p.Has(Staged) && !p.Has(Archived) && Holds(p, Parked, Old)
  }

  predicate FileArchive(p: Places, published: bool, restored: bool) {
    if restored then !p.Has(Parked) && Holds(p, Archived, New)
    else if published then Holds(p, Parked, Old) && !p.Has(Staged)
    else !p.Has(Parked) && Holds(p, Staged, New)
  }

  /** The canonical trio that verify expects in each phase. */
  predicate CanonicalAsExpected(phase: Phase, d: Inputs) {
    && Holds(d.source, Canonical, if phase in {Intent, Restored} then Old else New)
    && Holds(d.receipt, Canonical, if phase in {ReceiptPublished, Published, RestoreRequest} then New else Old)
    && Holds(d.request, Canonical, if phase.Published? then New else Old)
  }

  predicate VerifyAccepts(phase: Phase, d: Inputs) {
    ArchivesUnchanged(phase, d) && CanonicalAsExpected(phase, d)
  }

  /** The one slot of a file pair that verify never looks at: before the pair's restore its archive, after it
      its staging place. */
  function UnlookedSlot(phase: Phase, k: Kind): Location {
    var restored := phase in (if k.Receipt? then {RestoreReceipt, Restored}
                              else {RestoreRequest, RestoreReceipt, Restored});
    if restored then Staged else Archived
  }

  lemma FilePinsTheRest(p: Places, published: bool, restored: bool)
    ensures var slot := if restored then Staged else Archived;
            p == LayoutOf(if restored then Returned else if published then Swapped else Waiting)
            <==> && FileArchive(p, published, restored) && !p.Has(slot)
                 && Holds(p, Canonical, if published && !restored then New else Old)
  {
  }

  lemma SourcePinsAll(phase: Phase, p: Places)
    ensures p == LayoutFor(phase, Source)
            <==> SourceArchive(phase, p) && Holds(p, Canonical, if phase in {Intent, Restored} then Old else New)
  {
  }

  /** Whatever the six places hold, the layout of the phase is what verify accepts with the two slots that it
      never looks at empty. */
  lemma LayoutIsVerifyAndTwoSlots(phase: Phase, d: Inputs)
    ensures LaidOutFor(phase, d)
            <==> && VerifyAccepts(phase, d) && !d.receipt.Has(UnlookedSlot(phase, Receipt))
                 && !d.request.Has(UnlookedSlot(phase, Request))
  {
    hide FileArchive, SourceArchive, Pair, LayoutOf, Holds;
    SourcePinsAll(phase, d.source);
    FilePinsTheRest(d.receipt, phase in {ReceiptPublished, Published, RestoreRequest},
                    phase in {RestoreReceipt, Restored});
    FilePinsTheRest(d.request, phase.Published?, phase in {RestoreRequest, RestoreReceipt, Restored});
  }

  /** With both objects of each pair in exactly one place, verify accepts exactly one layout a phase. */
  lemma VerifyPinsTheLayout(phase: Phase, d: Inputs)
    requires Conserved(d.source) && Conserved(d.receipt) && Conserved(d.request)
    ensures VerifyAccepts(phase, d) <==> LaidOutFor(phase, d)
  {
    hide FileArchive, SourceArchive, LayoutOf, Holds, Conserved;
    LayoutIsVerifyAndTwoSlots(phase, d);
    if VerifyAccepts(phase, d) {
      TwoObjectsLeaveNoThird(d.receipt, phase in {ReceiptPublished, Published, RestoreRequest},
                             phase in {RestoreReceipt, Restored});
      TwoObjectsLeaveNoThird(d.request, phase.Published?, phase in {RestoreRequest, RestoreReceipt, Restored});
    }
  }

  lemma TwoObjectsLeaveNoThird(p: Places, published: bool, restored: bool)
    requires Conserved(p) && FileArchive(p, published, restored)
    requires Holds(p, Canonical, if published && !restored then New else Old)
    ensures !p.Has(if restored then Staged else Archived)
  {
  }

  lemma LaidOutIsAccepted(phase: Phase, d: Inputs)
    requires LaidOutFor(phase, d)
    ensures VerifyAccepts(phase, d)
  {
    LayoutIsVerifyAndTwoSlots(phase, d);
  }

  /** Each of these slots is overlooked: with a foreign object in it, verify accepts in every phase what is
      not the layout. */
  lemma VerifyOverlooksTwoSlots(phase: Phase, k: Kind)
    requires !k.Source?
    ensures var r, q := LayoutFor(phase, Receipt), LayoutFor(phase, Request);
            var l := Inputs(LayoutFor(phase, Source), r, q, Some(phase), 1, 1);
            var d := l.With(k, l.At(k).Put(UnlookedSlot(phase, k), Some(Foreign)));
            VerifyAccepts(phase, d) && !LaidOutFor(phase, d) && Holds(d.At(k), UnlookedSlot(phase, k), Foreign)
  {
  }

  /** What hangs on it: the live restore of a pair begins with a rename to the overlooked archive slot, which
      keeps as many objects as it found exactly when the slot is empty. */
  lemma RestoreKeepsWhatItFindsIff(phase: Phase, d: Inputs, k: Kind)
    requires VerifyAccepts(phase, d) && !k.Source? && UnlookedSlot(phase, k) == Archived
    ensures d.At(k).Has(Canonical)
    ensures d.At(k).Moved(Canonical, Archived).Count() == d.At(k).Count() <==> !d.At(k).Has(UnlookedSlot(phase, k))
  {
  }

  // ----- recovery's location search

  /** _recovery_location and reject_foreign for one object: the one place that holds it. */
  function Locate(p: Places, o: Object): Option<Location> {
    if p.Count() != 2 || (exists l: Location :: Holds(p, l, Foreign)) then None
    else if Holds(p, Canonical, o) then Some(Canonical)
    else if Holds(p, Parked, o) then Some(Parked)
    else if Holds(p, Staged, o) then Some(Staged)
    else if Holds(p, Archived, o) then Some(Archived)
    else None
  }

  lemma LocateFinds(p: Places, o: Object)
    requires InProgress(p) && o != Foreign
    ensures Locate(p, o).Some? && Holds(p, Locate(p, o).value, o)
    ensures forall l :: Holds(p, l, o) ==> l == Locate(p, o).value
  {
  }

  /** Archiving the new object and then bringing the old one home moves each into an empty place, leaves a
      state of progress in between, and ends returned. */
  lemma ReturnIsProgress(p: Places)
    requires InProgress(p)
    ensures Locate(p, Old).Some? && Locate(p, New).Some?
    ensures var o, n := Locate(p, Old).value, Locate(p, New).value;
            var archived := if n == Archived then p else p.Moved(n, Archived);
            && p.Has(n) && (n != Archived ==> !p.Has(Archived)) && InProgress(archived)
            && archived.Has(o) && (o != Canonical ==> !archived.Has(Canonical))
            && InProgress(archived.Moved(o, Canonical))
            && (if o == Canonical then archived else archived.Moved(o, Canonical)) == LayoutOf(Returned)
  {
  }

  /** resume guesses where the new source tree is from which paths exist; the guess is right in every
      state a stop can leave. */
  function GuessNewSource(p: Places): Location {
    if p.Has(Staged) then Staged else if p.Has(Archived) then Archived else Canonical
  }

  lemma GuessIsRight(p: Places)
    requires InProgress(p)
    ensures Holds(p, GuessNewSource(p), New)
  {
  }

  // ----- the transition itself

  datatype Step = Step(before: Inputs, after: Inputs)

  /** Only recoverable states.  A rename, with both records settled, moves one object of one pair into an empty
      place; otherwise a record changes, over the layout of its phase. */
  ghost predicate StepIsSafe(s: Step) {
    && Recoverable(s.before) && Recoverable(s.after) && RecordLinks(s.before) && RecordLinks(s.after)
    && ((Settled(s.before) && exists k, from, to :: RenamesInto(s, k, from, to)) || ChangesRecord(s))
  }

  /** A settled state file is replaced, or a new record is linked, or the staging link of that record goes. */
  predicate ChangesRecord(s: Step) {
    || LinksRecord(s) || DropsLink(s)
    || (&& Settled(s.before) && s.before.stateLinks == 1 && s.after.phase.Some?
        && s.after == s.before.(phase := s.after.phase) && LaidOutFor(s.after.phase.value, s.after))
  }

  /** A create-only record appears under its name, beside its staging name. */
  predicate LinksRecord(s: Step) {
    || (s.before.intentLinks == 0 && s.after == s.before.(intentLinks := 2) && LaidOutFor(Intent, s.after))
    || (&& Settled(s.before) && s.before.stateLinks == 0 && s.after.phase.Some?
        && s.after == s.before.(phase := s.after.phase, stateLinks := 2) && LaidOutFor(s.after.phase.value, s.after))
  }

  predicate DropsLink(s: Step) {
    || (s.before.intentLinks == 2 && s.after == s.before.(intentLinks := 1))
    || (s.before.stateLinks == 2 && s.after == s.before.(stateLinks := 1))
  }

  ghost predicate RenamesInto(s: Step, k: Kind, from: Location, to: Location) {
    var p := s.before.At(k);
    p.Has(from) && !p.Has(to) && s.after == s.before.With(k, p.Moved(from, to))
  }

  ghost predicate Recorded(steps: seq<Step>) {
    forall i :: 0 <= i < |steps| ==> StepIsSafe(steps[i])
  }

  /** Entry: refused before any effect of this call.  Inside: raised with the transition marked uncertain
      or stopped in a phase that allows nothing more. */
  datatype Outcome = Done | Denied(entry: bool)

  // ----- resume

  /** resume: it reads the intent and the state file, each with one link, and finds the six objects. */
  predicate ResumeAccepts(d: Inputs) {
    && d.intentLinks == 1 && (d.phase.Some? ==> d.stateLinks == 1)
    && Holds(d.source, GuessNewSource(d.source), New)
    && forall k: Kind :: Locate(d.At(k), Old).Some? && Locate(d.At(k), New).Some?
                         && Locate(d.At(k), Old) != Locate(d.At(k), New)
  }

  /** Wherever a run stopped, resume accepts exactly with both records settled. */
  lemma ResumeIff(d: Inputs)
    requires Recoverable(d) && RecordLinks(d)
    ensures ResumeAccepts(d) <==> Settled(d)
  {
    hide InProgress, Locate;
    GuessIsRight(d.source);
    forall k: Kind ensures Locate(d.At(k), Old).Some? && Locate(d.At(k), New).Some?
                           && Locate(d.At(k), Old) != Locate(d.At(k), New)
    {
      LocateFinds(d.At(k), Old);
      LocateFinds(d.At(k), New);
    }
  }

  /** So a stop after a step past the intent is refused exactly when the step linked a record whose staging
      link then stayed. */
  lemma RefusedStopIff(steps: seq<Step>, i: nat)
    requires Recorded(steps) && i < |steps|
    ensures !ResumeAccepts(steps[i].after) <==> LinksRecord(steps[i])
  {
    hide Recoverable, LaidOutFor, ResumeAccepts;
    assert StepIsSafe(steps[i]);
    ResumeIff(steps[i].after);
  }

  class SuccessorInputs {
    var disk: Inputs
    var phase: Option<Phase>
    var pending: Option<Option<Phase>>  // while a phase is being written: the one it replaces
    var uncertain: bool
    var recovering: bool
    var restored: bool
    ghost var steps: seq<Step>
    ghost var refusals: nat

    ghost predicate Sound()
      reads this
    {
      Recoverable(disk) && RecordLinks(disk) && Recorded(steps)
    }

    /** The live object agrees with the state file, or is marked uncertain. */
    ghost predicate Live()
      reads this
    {
      Sound() && !recovering && (!uncertain ==>
        && pending.None? && disk.phase == phase && Settled(disk)
        && LaidOutFor(if phase.Some? then phase.value else Intent, disk))
    }

    /** The intent is not known to be recorded. */
    ghost predicate Preparing()
      reads this
    {
      && disk.phase.None? && phase.None? && pending.None? && !uncertain && !recovering && !restored
      && LaidOutFor(Intent, disk)
    }

    /** Nothing more can be done with this object. */
    predicate Stuck()
      reads this
    {
      !recovering && phase.Some? && (uncertain || phase != Some(Published))
    }

    /** prepare and the archives are done, neither record is on disk. */
    constructor BeforeIntent(disk: Inputs)
      requires disk.phase.None? && disk.intentLinks == disk.stateLinks == 0 && LaidOutFor(Intent, disk)
      ensures Sound() && Preparing() && this.disk == disk && steps == [] && refusals == 0
    {
      this.disk, phase, pending, uncertain, recovering, restored := disk, None, None, false, false, false;
      steps, refusals := [], 0;
    }

    /** resume, where it accepts: authenticates and reads, moves nothing. */
    constructor Resume(disk: Inputs)
      requires Recoverable(disk) && RecordLinks(disk) && ResumeAccepts(disk)
      ensures Sound() && recovering && this.disk == disk && phase == disk.phase && steps == [] && refusals == 0
      ensures restored <==> disk.phase == Some(Restored)
    {
      this.disk, phase, pending, uncertain, recovering := disk, disk.phase, None, false, true;
      restored := disk.phase == Some(Restored);
      steps, refusals := [], 0;
    }

    /** A boundary, an fsync or a read that may raise. */
    method Proceed() returns (ok: bool)
      modifies this`refusals
      ensures refusals == if ok then old(refusals) else old(refusals) + 1
    {
      ok := *;
      if !ok { refusals := refusals + 1; }
    }

    /** rename(2) into an empty place. */
    method Rename(k: Kind, from: Location, to: Location)
      requires Sound() && disk.At(k).Has(from) && !disk.At(k).Has(to) && InProgress(disk.At(k).Moved(from, to))
      requires Settled(disk)
      modifies this`disk, this`steps
      ensures Sound() && disk == old(disk).With(k, old(disk).At(k).Moved(from, to))
      ensures steps == old(steps) + [Step(old(disk), disk)]
    {
      ghost var before := disk;
      disk := disk.With(k, disk.At(k).Moved(from, to));
      assert RenamesInto(Step(before, disk), k, from, to);
      steps := steps + [Step(before, disk)];
    }

    /** One change of a record. */
    method Change(after: Inputs)
      requires Sound() && ChangesRecord(Step(disk, after)) && Recoverable(after) && RecordLinks(after)
      modifies this`disk, this`steps
      ensures Sound() && disk == after && steps == old(steps) + [Step(old(disk), after)]
    {
      steps := steps + [Step(disk, after)];
      disk := after;
    }

    /** atomic with create_only for the intent: the link, then the unlink of the staging name, which is tried
        after a failure too. */
    method RecordIntent() returns (ok: bool)
      requires Sound() && Preparing() && disk.intentLinks == 0
      modifies this`disk, this`steps, this`refusals
      ensures Sound() && old(steps) <= steps && Preparing()
      ensures disk == old(disk).(intentLinks := disk.intentLinks)
      ensures steps == old(steps) + [Step(old(disk), old(disk).(intentLinks := 2))]
              + (if disk.intentLinks == 1 then [Step(old(disk).(intentLinks := 2), disk)] else [])
              || (steps == old(steps) && disk == old(disk) && !ok)
      ensures if ok then refusals == old(refusals) && Live() else refusals > old(refusals)
    {
      ok := Proceed();
      if !ok { return; }
      Change(disk.(intentLinks := 2));
      ok := Proceed();
      var unlinked := Proceed();
      if !unlinked { return false; }
      Change(disk.(intentLinks := 1));
      var synced := Proceed();
      ok := ok && synced;
    }

    /** The state file: a first one is linked and its staging name unlinked, a later one replaced atomically. */
    method Record(p: Phase, create: bool) returns (ok: bool)
      requires Sound() && LaidOutFor(p, disk) && Settled(disk) && (create <==> disk.phase.None?)
      modifies this`disk, this`steps, this`refusals
      ensures Sound() && old(steps) <= steps
      ensures disk == old(disk).(phase := Some(p), stateLinks := disk.stateLinks) && disk.stateLinks >= 1
      ensures disk.stateLinks == 2 ==> create && !ok && steps == old(steps) + [Step(old(disk), disk)]
      ensures if ok then Settled(disk) && refusals == old(refusals) else refusals > old(refusals)
    {
      if !create {
        Change(disk.(phase := Some(p)));
        ok := Proceed();
        return;
      }
      Change(disk.(phase := Some(p), stateLinks := 2));
      ok := Proceed();
      var unlinked := Proceed();
      if !unlinked { return false; }
      Change(disk.(stateLinks := 1));
      var synced := Proceed();
      ok := ok && synced;
    }

    /** verify in a recorded phase. */
    predicate Verify()
      reads this
    {
      && !uncertain && phase.Some? && disk.intentLinks == 1 && disk.stateLinks <= 1
      && (disk.phase == phase || (pending.Some? && disk.phase == pending.value))
      && VerifyAccepts(phase.value, disk)
    }

    /** The caller's boundary, which itself runs verify. */
    method Boundary() returns (ok: bool)
      modifies this`refusals
      ensures ok ==> && !uncertain && phase.Some? && disk.intentLinks == 1 && disk.stateLinks <= 1
                     && (disk.phase == phase || (pending.Some? && disk.phase == pending.value))
                     && VerifyAccepts(phase.value, disk)
      ensures !uncertain && phase.Some? && LaidOutFor(phase.value, disk) && Settled(disk)
              && (disk.phase == phase || (pending.Some? && disk.phase == pending.value)) ==>
                refusals == if ok then old(refusals) else old(refusals) + 1
    {
      if phase.Some? && LaidOutFor(phase.value, disk) { LaidOutIsAccepted(phase.value, disk); }
      if !Verify() { return false; }
      ok := Proceed();
    }

    /** _write_phase: the live phase moves first, so that a boundary inside the write sees it pending. */
    method WritePhase(p: Phase) returns (ok: bool)
      requires Sound() && !uncertain && pending.None? && disk.phase == phase && LaidOutFor(p, disk) && Settled(disk)
      requires p.Intent? <==> phase.None?
      modifies this`disk, this`steps, this`phase, this`pending, this`uncertain, this`refusals
      ensures Sound() && phase == Some(p) && old(steps) <= steps
      ensures disk == old(disk) || disk == old(disk).(phase := Some(p), stateLinks := disk.stateLinks)
      ensures disk.stateLinks == 2 ==> p.Intent? && steps == old(steps) + [Step(old(disk), disk)]
      ensures ok ==> disk.phase == Some(p) && Settled(disk) && !uncertain && pending.None? && refusals == old(refusals)
      ensures !ok ==> uncertain && refusals > old(refusals)
    {
      phase, pending := Some(p), Some(phase);
      ok := Boundary();
      if ok { ok := Record(p, p.Intent?); }
      if ok { pending := None; } else { uncertain := true; }
    }

    /** Two renames of one pair: the object at the live path steps aside, the other takes its place. */
    method Exchange(k: Kind, aside: Location, from: Location) returns (ok: bool)
      requires Sound() && Settled(disk)
      requires (aside == Parked && from == Staged && disk.At(k) == LayoutOf(Waiting))
            || (aside == Archived && from == Parked && disk.At(k) == LayoutOf(Swapped))
      modifies this`disk, this`steps, this`refusals
      ensures Sound() && old(steps) <= steps && disk.phase == old(disk).phase
      ensures forall j: Kind :: j != k ==> disk.At(j) == old(disk).At(j)
      ensures ok ==> disk == old(disk).With(k, LayoutOf(if aside == Parked then Swapped else Returned))
                     && refusals == old(refusals)
      ensures !ok ==> refusals > old(refusals)
      ensures |steps| > |old(steps)|
    {
      hide Recorded, ChangesRecord;
      Rename(k, Canonical, aside);
      ok := Proceed();
      if !ok { return; }
      Rename(k, from, Canonical);
      ok := Proceed();
    }

    /** publish, from the signed intent on. */
    method Publish() returns (r: Outcome)
      requires Live()
      modifies this
      ensures Live() && old(steps) <= steps
      ensures r.Done? ==> phase == Some(Published) && !uncertain && LaidOutFor(Published, disk)
      ensures old(phase).None? && r.Denied? && phase.Some? ==> Stuck()
      ensures old(phase).Some? ==> r == Denied(true) && steps == old(steps) && disk == old(disk)
      ensures old(phase).Some? ==> Stuck() == old(Stuck())
      ensures old(phase).None? && r.Denied? ==> refusals > old(refusals) || old(uncertain)
      ensures r.Done? ==> refusals == old(refusals)
    {
      if phase.Some? || uncertain { return Denied(true); }
      var ok := WritePhase(Intent);
      if !ok { return Denied(false); }
      ok := Boundary();
      if !ok { return Denied(false); }
      r := PublishRest();
    }

    /** The three exchanges; any failure marks the transition uncertain. */
    method PublishRest() returns (r: Outcome)
      requires Live() && !uncertain && phase == Some(Intent)
      modifies this
      ensures Live() && old(steps) <= steps && phase.Some?
      ensures r.Done? ==> phase == Some(Published) && !uncertain && LaidOutFor(Published, disk)
      ensures r.Denied? ==> uncertain && refusals > old(refusals) && !r.entry
      ensures r.Done? ==> refusals == old(refusals)
    {
      hide Recorded, Recoverable, VerifyAccepts, LayoutOf, LaidOutFor;
      r := Denied(false);
      var ok := PublishPair(Source, Intent, SourcePublished);
      if ok { ok := PublishPair(Receipt, SourcePublished, ReceiptPublished); }
      if ok { ok := PublishPair(Request, ReceiptPublished, Published); }
      if ok { ok := Boundary(); }
      if ok { r := Done; } else { uncertain := true; }
    }

    /** One exchange between two recorded phases. */
    method PublishPair(k: Kind, from: Phase, to: Phase) returns (ok: bool)
      requires Live() && !uncertain && phase == Some(from)
      requires (k, from, to) in {(Source, Intent, SourcePublished), (Receipt, SourcePublished, ReceiptPublished),
                                 (Request, ReceiptPublished, Published)}
      modifies this
      ensures Live() && old(steps) <= steps && phase.Some?
      ensures if ok then !uncertain && phase == Some(to) && refusals == old(refusals)
              else uncertain && refusals > old(refusals)
    {
      hide Recorded, Recoverable, VerifyAccepts, LayoutOf;
      ok := Boundary();
      if ok { ok := Exchange(k, Parked, Staged); }
      if ok { ok := WritePhase(to); }
      if !ok { uncertain := true; }
    }

    /** restore on the live road: only a completed publication can be turned back. */
    method Restore() returns (r: Outcome)
      requires Live()
      modifies this
      ensures Live() && old(steps) <= steps
      ensures old(Stuck()) ==> r == Denied(true) && steps == old(steps) && disk == old(disk) && Stuck()
      ensures old(uncertain) ==> r == Denied(true) && steps == old(steps)
      ensures r == Denied(true) ==> disk == old(disk) && phase == old(phase) && uncertain == old(uncertain)
      ensures r == Denied(false) ==> Stuck()
      ensures r.Denied? && old(phase) == Some(Published) && !old(uncertain) ==> (Stuck() <==> steps != old(steps))
      ensures r.Denied? ==> refusals > old(refusals) || old(Stuck()) || old(uncertain)
      ensures r.Done? && old(phase).Some? ==> phase == Some(Restored) && LaidOutFor(Restored, disk) && restored
      ensures r.Done? && old(phase).None? ==> disk == old(disk) && restored
      ensures r.Done? ==> refusals == old(refusals)
    {
      if uncertain { return Denied(true); }
      if phase.None? {
        var ready := Proceed();
        if !ready { return Denied(true); }
        restored := true;
        return Done;
      }
      if phase != Some(Published) { return Denied(true); }
      var ok := Boundary();
      if !ok { return Denied(true); }
      r := RestoreRest();
    }

    method RestoreRest() returns (r: Outcome)
      requires Live() && !uncertain && phase == Some(Published)
      modifies this
      ensures Live() && old(steps) <= steps && phase.Some?
      ensures r.Done? ==> phase == Some(Restored) && LaidOutFor(Restored, disk) && restored
      ensures r.Denied? ==> Stuck() && refusals > old(refusals) && !r.entry
      ensures |steps| > |old(steps)|
      ensures r.Done? ==> refusals == old(refusals)
    {
      hide Recorded, Recoverable, VerifyAccepts, LayoutOf, LaidOutFor;
      r := Denied(false);
      var ok := RestorePair(Request, Published, RestoreRequest);
      if ok { ok := RestorePair(Receipt, RestoreRequest, RestoreReceipt); }
      if ok { ok := Boundary(); }
      if ok { ok := RestorePair(Source, RestoreReceipt, Restored); }
      if !ok { uncertain := true; return; }
      restored := true;
      ok := Boundary();
      if ok { r := Done; }
    }

    /** One exchange back between two recorded phases. */
    method RestorePair(k: Kind, from: Phase, to: Phase) returns (ok: bool)
      requires Live() && !uncertain && phase == Some(from)
      requires (k, from, to) in {(Request, Published, RestoreRequest), (Receipt, RestoreRequest, RestoreReceipt),
                                 (Source, RestoreReceipt, Restored)}
      modifies this
      ensures Live() && old(steps) <= steps && phase.Some? && |steps| > |old(steps)|
      ensures if ok then !uncertain && phase == Some(to) && refusals == old(refusals)
              else uncertain && refusals > old(refusals)
    {
      hide Recorded, Recoverable, VerifyAccepts, LayoutOf;
      ok := Exchange(k, Archived, Parked);
      if ok { ok := WritePhase(to); }
      if !ok { uncertain := true; }
    }

    /** _restore_interrupted, after resume: bring every pair home from wherever the stop left it. */
    method RestoreInterrupted() returns (r: Outcome)
      requires Sound() && recovering && Settled(disk) && phase == disk.phase
      modifies this
      ensures Sound() && old(steps) <= steps
      ensures r.Done? ==> LaidOutFor(Restored, disk) && disk.phase == phase == Some(Restored) && restored && Live()
      ensures r.Done? ==> Settled(disk)
      ensures r.Denied? ==> refusals > old(refusals)
      ensures r.Done? ==> refusals == old(refusals)
    {
      hide Recorded, VerifyAccepts, LayoutOf, InProgress;
      r := Denied(false);
      var ok := ReturnPair(Request);
      if ok { ok := ReturnPair(Receipt); }
      if ok { ok := ReturnPair(Source); }
      if !ok { return; }
      ok := Proceed();
      if !ok { return; }
      ok := Record(Restored, phase.None?);
      if !ok { return; }
      phase, restored, recovering, pending, uncertain := Some(Restored), true, false, None, false;
      ok := Boundary();
      if ok { r := Done; }
    }

    /** restore_pair: locate both objects, archive the new one, then bring the old one back. */
    method ReturnPair(k: Kind) returns (ok: bool)
      requires Sound() && recovering && Settled(disk)
      modifies this`disk, this`steps, this`refusals
      ensures Sound() && old(steps) <= steps && disk.phase == old(disk).phase && Settled(disk)
      ensures forall j: Kind :: j != k ==> disk.At(j) == old(disk).At(j)
      ensures ok ==> disk.At(k) == LayoutOf(Returned) && refusals == old(refusals)
      ensures !ok ==> refusals > old(refusals)
    {
      hide Recorded, InProgress, Locate, LayoutOf;
      ok := Proceed();
      if !ok { return; }
      ReturnIsProgress(disk.At(k));
      var oldAt, newAt := Locate(disk.At(k), Old).value, Locate(disk.At(k), New).value;
      if newAt != Archived {
        if disk.At(k).Has(Archived) { return false; }
        Rename(k, newAt, Archived);
        ok := Proceed();
        if !ok { return; }
      }
      if oldAt != Canonical {
        if disk.At(k).Has(Canonical) { return false; }
        Rename(k, oldAt, Canonical);
        ok := Proceed();
        if !ok { return; }
      }
    }
  }

  // ----- whole runs

  /** All six objects stay, each at exactly one location, through every stop. */
  lemma SixObjectsStay(steps: seq<Step>, i: nat, k: Kind)
    requires Recorded(steps) && i < |steps|
    ensures Conserved(steps[i].before.At(k)) && Conserved(steps[i].after.At(k))
  {
    InProgressIsConserved(steps[i].before.At(k));
    InProgressIsConserved(steps[i].after.At(k));
  }

  lemma InProgressIsConserved(p: Places)
    requires InProgress(p)
    ensures Conserved(p)
  {
  }

  /** A rename finds its destination empty and changes nothing but the place of one object. */
  lemma RenameKeepsTheObject(s: Step, k: Kind, from: Location, to: Location)
    requires RenamesInto(s, k, from, to)
    ensures !s.before.At(k).Has(to) && s.after.At(k).At(to) == s.before.At(k).At(from) && !s.after.At(k).Has(from)
    ensures forall l: Location :: l != from && l != to ==> s.after.At(k).At(l) == s.before.At(k).At(l)
    ensures forall j: Kind :: j != k ==> s.after.At(j) == s.before.At(j)
  {
  }

  /** A fresh owner after a stop anywhere, by whatever operation and whatever process: it is refused unless both
      records are settled; before the intent is linked, resume takes the road of preparation.  Once it is not
      refused, restore brings the three old objects back to the live paths and archives the three new ones. */
  method RecoverAfterStop(ghost earlier: seq<Step>, ghost i: nat, stopped: Inputs)
    returns (owner: SuccessorInputs?, r: Outcome)
    requires Recorded(earlier) && i < |earlier| && (stopped == earlier[i].before || stopped == earlier[i].after)
    ensures owner == null <==> !Settled(stopped)
    ensures owner == null ==> r == Denied(true)
    ensures owner != null ==> fresh(owner) && owner.Sound()
    ensures r.Done? ==> owner != null && owner.disk.phase == Some(Restored) && Settled(owner.disk) &&
                        owner.disk.source == owner.disk.receipt == owner.disk.request == LayoutOf(Returned)
    ensures owner != null && r.Denied? ==> owner.refusals > 0
  {
    hide InProgress, LayoutOf, ResumeAccepts, ChangesRecord, RenamesInto;
    assert StepIsSafe(earlier[i]);
    ResumeIff(stopped);
    if !ResumeAccepts(stopped) { return null, Denied(true); }
    var resumed := new SuccessorInputs.Resume(stopped);
    r := resumed.RestoreInterrupted();
    owner := resumed;
  }

  // ----- the stops that resume refuses

  const START := Inputs(LayoutOf(Waiting), LayoutOf(Waiting), LayoutOf(Waiting), None, 0, 0)

  /** publish begins: the intent is linked and settled, then the first state file is linked. */
  function PublishingWorlds(): seq<Inputs> {
    var settled := START.(intentLinks := 1);
    [START, START.(intentLinks := 2), settled, settled.(phase := Some(Intent), stateLinks := 2)]
  }

  /** Recovery without a state file: each new object is archived, then the final state file is linked. */
  function RecoveringWorlds(): seq<Inputs> {
    var w0 := START.(intentLinks := 1);
    var w1 := w0.(request := w0.request.Moved(Staged, Archived));
    var w2 := w1.(receipt := w1.receipt.Moved(Staged, Archived));
    var w3 := w2.(source := w2.source.Moved(Staged, Archived));
    [w0, w1, w2, w3, w3.(phase := Some(Restored), stateLinks := 2)]
  }

  function StepsOf(worlds: seq<Inputs>): seq<Step>
    requires worlds != []
  {
    seq(|worlds| - 1, i requires 0 <= i < |worlds| - 1 => Step(worlds[i], worlds[i + 1]))
  }

  /** Three such stops, each after the operations of publish from BeforeIntent or of recovery from Resume: the
      intent, the first state file, and the final state file of a recovery that found none. */
  lemma RefusedStopsAreReached()
    ensures var p, q := PublishingWorlds(), RecoveringWorlds();
            && Recorded(StepsOf(p)) && Recorded(StepsOf(q)) && ResumeAccepts(q[0]) && p[2] == q[0]
            && !ResumeAccepts(p[1]) && !ResumeAccepts(p[3]) && !ResumeAccepts(q[4])
  {
    hide Recorded;
    PublishingIsRecorded();
    RecoveringIsRecorded();
    ResumeIff(RecoveringWorlds()[0]);
  }

  lemma PublishingIsRecorded()
    ensures Recorded(StepsOf(PublishingWorlds()))
  {
    forall i | 0 <= i < 3 ensures StepIsSafe(StepsOf(PublishingWorlds())[i]) {
    }
  }

  lemma RecoveringIsRecorded()
    ensures Recorded(StepsOf(RecoveringWorlds()))
  {
    var q := RecoveringWorlds();
    var kinds := [Request, Receipt, Source];
    forall i | 0 <= i < 4 ensures StepIsSafe(StepsOf(q)[i]) {
      if i < 3 { assert RenamesInto(Step(q[i], q[i + 1]), kinds[i], Staged, Archived); }
    }
  }
}
