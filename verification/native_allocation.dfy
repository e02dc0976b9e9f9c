/** The native allocation transaction: one drop-in directory with one configuration file, one unit
    restart, and a receipt that names by identity everything that a rollback may remove or stop. */
module NativeAllocation {

  import opened Wrappers

  /** A file of the drop-in directory; genuine: it has the expected content and custody. */
  datatype Config = Config(inode: nat, genuine: bool)

  /** others: every other name in the directory, with its inode. */
  datatype Dropin = Dropin(inode: nat, config: Option<Config>, others: map<string, nat>)

  /** A staging file of the transaction: the name it was created under and its inode. */
  datatype Staged = Staged(name: string, inode: nat)

  /** An active unit is identified by its incarnation: boot, pid, start time and invocation. */
  datatype Service = Running(incarnation: nat) | Stopped | Unsettled

  datatype Phase =
    | Prepared | StopRequested | ConfigRequested | StartRequested | DependencyObserved
    | RestoreRequested | Restored

  datatype Receipt = Receipt(phase: Phase, directory: Option<nat>, config: Option<nat>,
                             startIncarnation: Option<nat>, runtimeAfter: Option<nat>,
                             restorationIncarnation: Option<nat>)

  datatype World = World(dropin: Option<Dropin>, service: Service, receipt: Receipt)

  datatype Operation =
    | Journal                                                // the receipt is replaced
    | ObserveUnit                                            // the running incarnation is read and accepted
    | StopUnit | StartUnit
    | MakeDirectory | Stage(file: Staged) | LinkConfig(name: string) | Sweep(file: Staged)
    | RemoveConfig | RemoveDirectory

  datatype Step = Step(op: Operation, before: World, after: World)

  datatype Outcome = Done | Denied

  /** What other actors do at the pauses of a call: nothing, anything to the drop-in directory, or also
      stop and start the unit. */
  datatype Company = Alone | InDirectory | Everywhere

  const FRESH_RECEIPT := Receipt(Prepared, None, None, None, None, None)

  // ----- what a step does, and what it may take away

  /** The effect of each operation; what goes by name takes whatever the name holds. */
  predicate Does(s: Step) {
    var w, v := s.before, s.after;
    match s.op
    case Journal => v == w.(receipt := v.receipt)
    case ObserveUnit => w.service.Running? && v == w
    case StopUnit => !v.service.Running? && v == w.(service := v.service)
    case StartUnit => !w.service.Running? && !v.service.Stopped? && v == w.(service := v.service)
    case MakeDirectory =>
      w.dropin.None? && v.dropin.Some? && v == w.(dropin := Some(Dropin(v.dropin.value.inode, None, map[])))
    case Stage(f) =>
      && w.dropin.Some? && w.receipt.directory == Some(w.dropin.value.inode) && f.name !in w.dropin.value.others
      && v == w.(dropin := Some(WithFile(w.dropin.value, f)))
    case LinkConfig(name) =>
      && w.dropin.Some? && w.receipt.directory == Some(w.dropin.value.inode)
      && w.dropin.value.config.None? && name in w.dropin.value.others
      && v.dropin.Some? && v.dropin.value.config.Some?
      && v.dropin.value.config.value.inode == w.dropin.value.others[name]
      && v == w.(dropin := Some(w.dropin.value.(config := v.dropin.value.config)))
    case Sweep(f) =>
      w.dropin.Some? && f.name in w.dropin.value.others && v == w.(dropin := Some(WithoutFile(w.dropin.value, f.name)))
    case RemoveConfig =>
      && w.dropin.Some? && w.dropin.value.config.Some?
      && w.receipt.config == Some(w.dropin.value.config.value.inode)
      && v == w.(dropin := Some(w.dropin.value.(config := None)))
    case RemoveDirectory =>
      && w.dropin.Some? && w.dropin.value.config.None? && w.dropin.value.others == map[]
      && w.receipt.directory == Some(w.dropin.value.inode) && v == w.(dropin := None)
  }

  function WithFile(d: Dropin, f: Staged): Dropin { d.(others := d.others[f.name := f.inode]) }

  function WithoutFile(d: Dropin, name: string): Dropin { d.(others := d.others - {name}) }

  /** The incarnation is the one that the receipt names last or, before any start, the one in the plan. */
  predicate Tied(r: Receipt, prestate: nat, incarnation: nat) {
    if r.startIncarnation.Some? then r.startIncarnation == Some(incarnation)
    else if r.runtimeAfter.Some? then r.runtimeAfter == Some(incarnation)
    else prestate == incarnation
  }

  /** What others may have done between two states. */
  predicate Meanwhile(w: World, v: World, company: Company) {
    && v.receipt == w.receipt
    && (company.InDirectory? ==> v.service == w.service)
    && (company.Alone? ==> v == w)
  }

  /** A stop of a running unit: the incarnation is tied or, with no start recorded, others restarted the unit
      after its last observation.  A recorded start is observed again right before the stop. */
  predicate StopIsTied(s: Step, prestate: nat, company: Company) {
    s.op.StopUnit? && s.before.service.Running? ==>
      || Tied(s.before.receipt, prestate, s.before.service.incarnation)
      || (company.Everywhere? && s.before.receipt.startIncarnation.None?)
  }

  /** The receipts name the same incarnations. */
  predicate SameIncarnations(a: Receipt, b: Receipt) {
    a.startIncarnation == b.startIncarnation && a.runtimeAfter == b.runtimeAfter
  }

  /** Step `j` read a tied incarnation, and up to step `i` only records followed that name the same ones. */
  ghost predicate ObservedBefore(steps: seq<Step>, i: nat, j: nat, prestate: nat, r: Receipt)
    requires i <= |steps|
  {
    && j < i && steps[j].op.ObserveUnit? && steps[j].before.service.Running?
    && Tied(steps[j].before.receipt, prestate, steps[j].before.service.incarnation)
    && SameIncarnations(steps[j].before.receipt, r)
    && forall m :: j < m < i ==> steps[m].op.Journal?
  }

  /** A run: operations with only other actors between them; only tied stops, after an observation; a sweep only
      of a file that was staged before. */
  ghost predicate Recorded(steps: seq<Step>, prestate: nat, company: Company) {
    forall i :: 0 <= i < |steps| ==> RecordedAt(steps, i, prestate, company)
  }

  ghost predicate RecordedAt(steps: seq<Step>, i: nat, prestate: nat, company: Company)
    requires i < |steps|
  {
    && Does(steps[i]) && StopIsTied(steps[i], prestate, company)
    && (i > 0 ==> Meanwhile(steps[i - 1].after, steps[i].before, company))
    && (steps[i].op.StopUnit? ==> exists j :: ObservedBefore(steps, i, j, prestate, steps[i].before.receipt))
    && (steps[i].op.Sweep? ==> StagedBefore(steps, i, steps[i].op.file))
    && (steps[i].op.Sweep? && company.Alone? ==> !Rebound(steps[i].before, steps[i].op.file))
  }

  ghost predicate StagedBefore(steps: seq<Step>, i: nat, f: Staged)
    requires i <= |steps|
  {
    exists j :: 0 <= j < i && steps[j].op == Stage(f)
  }

  /** The staging name holds another inode than the staged one. */
  predicate Rebound(w: World, f: Staged) {
    w.dropin.Some? && f.name in w.dropin.value.others && w.dropin.value.others[f.name] != f.inode
  }

  ghost predicate Linked(steps: seq<Step>, w: World, company: Company) {
    steps != [] ==> Meanwhile(steps[|steps| - 1].after, w, company)
  }

  lemma StageDoes(w: World, f: Staged, prestate: nat, company: Company)
    requires w.dropin.Some? && w.receipt.directory == Some(w.dropin.value.inode) && f.name !in w.dropin.value.others
    ensures var s := Step(Stage(f), w, w.(dropin := Some(WithFile(w.dropin.value, f))));
            Does(s) && StopIsTied(s, prestate, company)
  {
  }

  lemma SweepDoes(w: World, f: Staged, prestate: nat, company: Company)
    requires w.dropin.Some? && f.name in w.dropin.value.others
    ensures var s := Step(Sweep(f), w, w.(dropin := Some(WithoutFile(w.dropin.value, f.name))));
            Does(s) && StopIsTied(s, prestate, company)
  {
  }

  lemma NoStop(op: Operation, w: World, prestate: nat, company: Company)
    requires !op.StopUnit?
    ensures forall v :: StopIsTied(Step(op, w, v), prestate, company)
  {
  }

  lemma StaysStaged(steps: seq<Step>, more: seq<Step>, f: Staged)
    requires StagedBefore(steps, |steps|, f) && steps <= more
    ensures StagedBefore(more, |more|, f)
  {
    var j :| 0 <= j < |steps| && steps[j].op == Stage(f);
    assert more[j].op == Stage(f);
  }

  lemma MeanwhileNothing(w: World, company: Company)
    ensures Meanwhile(w, w, company)
  {
  }

  lemma StepExtendsTheRun(steps: seq<Step>, s: Step, prestate: nat, company: Company)
    requires Recorded(steps, prestate, company) && Linked(steps, s.before, company)
    requires Does(s) && StopIsTied(s, prestate, company)
    requires s.op.Sweep? ==>
               StagedBefore(steps, |steps|, s.op.file) && (company.Alone? ==> !Rebound(s.before, s.op.file))
    requires s.op.StopUnit? ==> exists j :: ObservedBefore(steps, |steps|, j, prestate, s.before.receipt)
    ensures Recorded(steps + [s], prestate, company) && Linked(steps + [s], s.after, company)
    ensures s.op.Stage? ==> StagedBefore(steps + [s], |steps| + 1, s.op.file)
  {
    hide Does, StopIsTied, Meanwhile, Rebound, Tied, SameIncarnations;
    var more := steps + [s];
    forall i | 0 <= i < |more| ensures RecordedAt(more, i, prestate, company) {
      if i < |steps| { assert RecordedAt(steps, i, prestate, company); }
      if more[i].op.StopUnit? {
        var j :| ObservedBefore(steps, i, j, prestate, more[i].before.receipt);
        assert ObservedBefore(more, i, j, prestate, more[i].before.receipt);
      }
      if more[i].op.Sweep? {
        var j :| 0 <= j < i && steps[j].op == Stage(more[i].op.file);
        assert more[j].op == Stage(more[i].op.file);
      }
    }
    if s.op.Stage? { assert more[|steps|].op == Stage(s.op.file); }
    MeanwhileNothing(s.after, company);
  }

  lemma RecordKeepsObservation(steps: seq<Step>, more: seq<Step>, prestate: nat, r: Receipt, q: Receipt)
    requires exists j :: ObservedBefore(steps, |steps|, j, prestate, r)
    requires steps <= more && |more| == |steps| + 1 && more[|steps|].op == Journal && SameIncarnations(r, q)
    ensures exists j :: ObservedBefore(more, |more|, j, prestate, q)
  {
    var j :| ObservedBefore(steps, |steps|, j, prestate, r);
    assert ObservedBefore(more, |more|, j, prestate, q);
  }

  // ----- the ownership check

  /** _native_owned_configuration: directory, contents, configuration and recorded identities agree. */
  predicate Owned(w: World) {
    match w.dropin
    case None => w.receipt.directory.None? && (w.receipt.config.Some? ==> w.receipt.phase.ConfigRequested?)
    case Some(d) =>
      && w.receipt.directory == Some(d.inode) && d.others == map[]
      && match d.config
         case Some(c) => w.receipt.config == Some(c.inode) && c.genuine
         case None => w.receipt.config.Some? ==> w.receipt.phase.ConfigRequested?
  }

  predicate Configured(w: World) {
    && w.dropin.Some? && w.receipt.directory == Some(w.dropin.value.inode) && w.dropin.value.others == map[]
    && w.dropin.value.config.Some?
  }

  /** Where install may stop when no one else is near. */
  predicate InstallReaches(w: World, prestate: nat) {
    var r := w.receipt;
    && r.restorationIncarnation.None?
    && (w.dropin.Some? && w.dropin.value.config.Some? ==>
          w.dropin.value.config.value.genuine && r.config == Some(w.dropin.value.config.value.inode))
    && match r.phase
       case Prepared => w.service == Running(prestate) && w.dropin.None? && r == FRESH_RECEIPT
       case StopRequested =>
         (w.service.Running? ==> w.service == Running(prestate)) && w.dropin.None? &&
             r == FRESH_RECEIPT.(phase := r.phase)
       case ConfigRequested =>
         && w.service.Stopped? && r.startIncarnation.None? && r.runtimeAfter.None?
         && (r.directory.Some? ==> w.dropin.Some? && w.dropin.value.inode == r.directory.value)
         && (r.directory.None? ==> r.config.None? && (w.dropin.Some? ==> w.dropin.value.others == map[]))
       case StartRequested =>
         && Configured(w) && (w.service.Running? ==> w.service.incarnation != prestate)
         && (r.startIncarnation.Some? ==> w.service == Running(r.startIncarnation.value))
         && (r.runtimeAfter.Some? ==> r.startIncarnation == r.runtimeAfter)
       case DependencyObserved =>
         && Configured(w) && w.service.Running? && w.service.incarnation != prestate
         && r.startIncarnation == r.runtimeAfter == Some(w.service.incarnation)
       case _ => false
  }

  /** What rollback refuses: a directory made but not recorded; a staging file left in it; a configuration
      identity recorded but not linked, or already removed; a recorded directory that is gone; a unit that is
      neither running nor stopped; and one that was started before its incarnation was recorded. */
  predicate Refuses(w: World, prestate: nat) {
    var r := w.receipt;
    || (w.dropin.Some? && r.directory.None?)
    || (w.dropin.Some? && w.dropin.value.others != map[])
    || (r.config.Some? && (w.dropin.None? || w.dropin.value.config.None?))
    || (w.dropin.None? && r.directory.Some?)
    || w.service.Unsettled?
    || (w.service.Running? && !Tied(r, prestate, w.service.incarnation))
  }

  // ----- what rollback accepts, and where it may stop

  /** The entry check on a running unit: the recorded start, accepted or not yet, or before any start the plan's. */
  predicate Expected(r: Receipt, prestate: nat, incarnation: nat) {
    && (r.startIncarnation.Some? ==> r.startIncarnation == Some(incarnation))
    && (|| OwnedUnready(r)
        || incarnation == (if r.runtimeAfter.Some? then r.runtimeAfter.value else prestate))
  }

  predicate OwnedUnready(r: Receipt) {
    r.phase.StartRequested? && r.runtimeAfter.None? && r.startIncarnation.Some?
  }

  function RestoreRequest(w: World): World { w.(receipt := w.receipt.(phase := RestoreRequested)) }

  /** What a rollback with no fault and no one near completes from, as its checks read it. */
  predicate RollbackAccepts(w: World, prestate: nat) {
    if w.receipt.phase.Restored? then w.dropin.None? && w.service.Running?
    else
      Owned(w) &&
      match w.service
      case Running(i) =>
        && Expected(w.receipt, prestate, i)
        && (NothingMade(w.receipt) || Owned(RestoreRequest(w)))
      case Stopped => !w.receipt.phase.Prepared? && Owned(RestoreRequest(w))
      case Unsettled => false
  }

  predicate NothingMade(r: Receipt) { r.phase in {Prepared, StopRequested} && r.directory.None? }

  /** From a stop of install that is exactly the states that are not refused. */
  lemma InstallStopIsAcceptedIff(w: World, prestate: nat)
    requires InstallReaches(w, prestate)
    ensures RollbackAccepts(w, prestate) <==> !Refuses(w, prestate)
  {
  }

  /** An incarnation that was not seen before. */
  predicate Unseen(from: World, prestate: nat, incarnation: nat) {
    incarnation != prestate && Some(incarnation) != from.receipt.startIncarnation
  }

  /** Where a rollback that began at `from` may stop when no one else is near. */
  predicate UndoReaches(from: World, w: World, prestate: nat) {
    var r := from.receipt.(phase := RestoreRequested);
    var restarted := w.dropin.None? && w.service.Running? && Unseen(from, prestate, w.service.incarnation);
    || w == from
    || (w == from.(receipt := from.receipt.(phase := Restored)) && from.dropin.None? && from.service.Running?)
    || w == from.(receipt := r)
    || (w.receipt == r && w.dropin == from.dropin && !w.service.Running?)
    || (&& w.receipt == r && from.dropin.Some? && from.dropin.value.config.Some? && w.service.Stopped?
        && w.dropin == Some(from.dropin.value.(config := None)))
    || (w.receipt == r && w.dropin.None? && (w.service.Running? ==> restarted))
    || (restarted && w.receipt == r.(restorationIncarnation := Some(w.service.incarnation)))
    || (&& restarted
        && w.receipt == r.(restorationIncarnation := Some(w.service.incarnation), phase := Restored))
  }

  /** The states that are expected of a lone run at present. */
  datatype Region = Anywhere | OfInstall | OfUndo(from: World)

  predicate Within(region: Region, w: World, prestate: nat) {
    match region
    case Anywhere => true
    case OfInstall => InstallReaches(w, prestate)
    case OfUndo(from) => UndoReaches(from, w, prestate)
  }

  class Transaction {
    const prestate: nat                 // the incarnation observed by the signed plan
    const company: Company
    var world: World
    ghost var steps: seq<Step>
    ghost var refusals: nat
    ghost var rollbacks: nat            // rollbacks that were begun
    ghost var region: Region
    ghost var seen: seq<World>          // the worlds that the checks looked at

    constructor (prestate: nat, company: Company, world: World)
      ensures this.prestate == prestate && this.company == company && this.world == world
      ensures steps == [] && seen == [] && refusals == rollbacks == 0 && region == Anywhere
    {
      this.prestate, this.company, this.world := prestate, company, world;
      steps, seen, refusals, rollbacks, region := [], [], 0, 0, Anywhere;
    }

    ghost predicate Sound()
      reads this
    {
      Recorded(steps, prestate, company) && Linked(steps, world, company)
    }

    /** Alone, every state from step `k` on is in the region. */
    ghost predicate Reached(k: nat)
      reads this
    {
      company.Alone? ==>
        && Within(region, world, prestate)
        && forall i :: k <= i < |steps| ==> Within(region, steps[i].after, prestate)
    }

    /** A guard, an observation or an operating-system call: others may act meanwhile, and it may raise. */
    method Proceed() returns (ok: bool)
      modifies this`world, this`refusals, this`seen
      ensures Meanwhile(old(world), world, company) && seen == old(seen) + [world]
      ensures old(Sound()) ==> Sound()
      ensures refusals == if ok then old(refusals) else old(refusals) + 1
      ensures forall k: nat | old(Reached(k)) :: Reached(k)
    {
      ok := *;
      if !ok { refusals := refusals + 1; }
      var other: World := *;
      if !company.Alone? {
        world := World(other.dropin, if company.Everywhere? then other.service else world.service, world.receipt);
      }
      seen := seen + [world];
    }

    /** One effect of the transaction. */
    method Perform(ghost op: Operation, after: World)
      requires Sound() && Does(Step(op, world, after)) && StopIsTied(Step(op, world, after), prestate, company)
      requires op.Sweep? ==> StagedBefore(steps, |steps|, op.file) && (company.Alone? ==> !Rebound(world, op.file))
      requires op.StopUnit? ==> exists j :: ObservedBefore(steps, |steps|, j, prestate, world.receipt)
      modifies this`world, this`steps
      ensures Sound() && world == after && steps == old(steps) + [Step(op, old(world), after)]
      ensures op.Stage? ==> StagedBefore(steps, |steps|, op.file)
      ensures forall k: nat | && k <= |old(steps)| && old(Reached(k))
                              && (company.Alone? ==> Within(region, after, prestate)) :: Reached(k)
    {
      StepExtendsTheRun(steps, Step(op, world, after), prestate, company);
      steps := steps + [Step(op, world, after)];
      world := after;
    }

    /** systemctl stop: it may fail, or the process be killed, with the unit not settled. */
    method StopUnitOrFail() returns (ok: bool)
      requires Sound() && exists j :: ObservedBefore(steps, |steps|, j, prestate, world.receipt)
      requires forall v :: StopIsTied(Step(StopUnit, world, v), prestate, company)
      modifies this`world, this`steps, this`refusals
      ensures Sound() && world == old(world).(service := world.service)
      ensures steps == old(steps) + [Step(StopUnit, old(world), world)]
      ensures if ok then world.service.Stopped? && refusals == old(refusals)
              else world.service.Unsettled? && refusals > old(refusals)
      ensures forall k: nat | && k <= |old(steps)| && old(Reached(k))
                              && (company.Alone? ==> Within(region, world, prestate)) :: Reached(k)
    {
      hide Recorded, Linked, Within, ObservedBefore, StopIsTied;
      ok := *;
      Perform(StopUnit, world.(service := if ok then Stopped else Unsettled));
      if !ok { refusals := refusals + 1; }
    }

    /** systemctl start, likewise. */
    method StartUnitOrFail(incarnation: nat) returns (ok: bool)
      requires Sound() && !world.service.Running?
      modifies this`world, this`steps, this`refusals
      ensures Sound() && world == old(world).(service := world.service)
      ensures steps == old(steps) + [Step(StartUnit, old(world), world)]
      ensures if ok then world.service == Running(incarnation) && refusals == old(refusals)
              else world.service.Unsettled? && refusals > old(refusals)
      ensures forall k: nat | && k <= |old(steps)| && old(Reached(k))
                              && (company.Alone? ==> Within(region, world, prestate)) :: Reached(k)
    {
      hide Recorded, Linked, Within;
      ok := *;
      Perform(StartUnit, world.(service := if ok then Running(incarnation) else Unsettled));
      if !ok { refusals := refusals + 1; }
    }

    /** The running incarnation is read and accepted. */
    method Observe()
      requires Sound() && world.service.Running? && Tied(world.receipt, prestate, world.service.incarnation)
      modifies this`world, this`steps
      ensures Sound() && world == old(world) && steps == old(steps) + [Step(ObserveUnit, world, world)]
      ensures ObservedBefore(steps, |steps|, |old(steps)|, prestate, world.receipt)
      ensures forall k: nat | && k <= |old(steps)| && old(Reached(k))
                              && (company.Alone? ==> Within(region, world, prestate)) :: Reached(k)
    {
      hide Recorded, Linked, Within;
      Perform(ObserveUnit, world);
    }

    /** The receipt is replaced as a whole; a failure may come before or after. */
    method Record(r: Receipt) returns (ok: bool)
      requires Sound()
      modifies this`world, this`steps, this`refusals, this`seen
      ensures Sound() && old(seen) <= seen && old(steps) <= steps
      ensures company.Alone? ==> world.dropin == old(world).dropin
      ensures company.Everywhere? || world.service == old(world).service
      ensures world.receipt == r || (!ok && world.receipt == old(world).receipt)
      ensures ok ==> world.receipt == r && steps != old(steps)
      ensures steps == old(steps) || (|steps| == |old(steps)| + 1 && steps[|old(steps)|].op == Journal)
      ensures if ok then refusals == old(refusals) else refusals > old(refusals)
      ensures forall k: nat | && k <= |old(steps)| && old(Reached(k))
                              && (company.Alone? ==> Within(region, world, prestate)) :: Reached(k)
    {
      ok := Proceed();
      if !ok { return; }
      Perform(Journal, world.(receipt := r));
      ok := Proceed();
    }

    /** rollback_native_allocation */
    method Rollback() returns (r: Outcome)
      requires Sound()
      modifies this
      ensures Sound() && old(seen) <= seen && old(steps) <= steps && rollbacks == old(rollbacks) + 1
      ensures r.Done? ==> world.receipt.phase.Restored?
      ensures company.Alone? && world.receipt.phase.Restored? && (r.Done? || !old(world).receipt.phase.Restored?) ==>
                world.dropin.None? && world.service.Running?
      ensures company.Alone? && refusals == old(refusals) ==> (r.Done? <==> RollbackAccepts(old(world), prestate))
      ensures company.Alone? && InstallReaches(old(world), prestate) && !Refuses(old(world), prestate) ==>
                && UndoReaches(old(world), world, prestate)
                && forall i :: |old(steps)| <= i < |steps| ==> UndoReaches(old(world), steps[i].after, prestate)
      ensures company.Alone? && InstallReaches(old(world), prestate) && refusals == old(refusals) ==>
                (r.Done? <==> !Refuses(old(world), prestate))
      ensures old(world).receipt.phase.Restored? ==> steps == old(steps)
      ensures refusals >= old(refusals)
      ensures r.Done? ==> refusals == old(refusals)
      ensures company.Alone? && old(world).service.Running? && old(world).receipt.directory.None?
              && old(world).receipt.phase in {Prepared, StopRequested} ==>
                world.service == old(world).service && forall i :: |old(steps)| <= i < |steps| ==> steps[i].op.Journal?
      ensures r.Done? ==> exists i :: |old(seen)| <= i < |seen| && seen[i].dropin.None?
      ensures steps != old(steps) ==> exists i :: |old(seen)| <= i < |seen| && Owned(seen[i])
    {
      hide Recorded, Linked, Owned, InstallReaches, Refuses, RollbackAccepts;
      rollbacks := rollbacks + 1;
      region := if InstallReaches(world, prestate) && !Refuses(world, prestate) then OfUndo(world) else Anywhere;
      if InstallReaches(world, prestate) { InstallStopIsAcceptedIff(world, prestate); }
      assert Reached(|steps|);
      r := CheckAndUndo();
    }

    /** Its checks on entry, and a unit that was never touched. */
    method CheckAndUndo() returns (r: Outcome)
      requires Sound() && !region.OfInstall? && (company.Alone? && region.OfUndo? ==> world == region.from)
      modifies this`world, this`steps, this`refusals, this`seen
      ensures Sound() && old(seen) <= seen && old(steps) <= steps
      ensures r.Done? ==> world.receipt.phase.Restored?
      ensures company.Alone? && world.receipt.phase.Restored? && (r.Done? || !old(world).receipt.phase.Restored?) ==>
                world.dropin.None? && world.service.Running?
      ensures company.Alone? && refusals == old(refusals) ==> (r.Done? <==> RollbackAccepts(old(world), prestate))
      ensures forall k: nat | k <= |old(steps)| && old(Reached(k)) :: Reached(k)
      ensures old(world).receipt.phase.Restored? ==> steps == old(steps)
      ensures refusals >= old(refusals)
      ensures r.Done? ==> refusals == old(refusals)
      ensures company.Alone? && old(world).service.Running? && old(world).receipt.directory.None?
              && old(world).receipt.phase in {Prepared, StopRequested} ==>
                world.service == old(world).service && forall i :: |old(steps)| <= i < |steps| ==> steps[i].op.Journal?
      ensures r.Done? ==> exists i :: |old(seen)| <= i < |seen| && seen[i].dropin.None?
      ensures steps != old(steps) ==> exists i :: |old(seen)| <= i < |seen| && Owned(seen[i])
    {
      hide Recorded, Linked, InstallReaches;
      r := Denied;
      var ok := Proceed();
      ghost var looked := |seen| - 1;
      if !ok { return; }
      if world.receipt.phase.Restored? {
        if world.dropin.None? && world.service.Running? {
          assert seen[looked].dropin.None?;
          r := Done;
        }
        return;
      }
      if !Owned(world) { return; }
      var active := world.service.Running?;
      if active {
        var i := world.service.incarnation;
        if world.receipt.startIncarnation.Some? && Some(i) != world.receipt.startIncarnation { return; }
        if !(world.receipt.phase.StartRequested? && world.receipt.runtimeAfter.None?
             && world.receipt.startIncarnation.Some?) {
          var expected := if world.receipt.runtimeAfter.Some? then world.receipt.runtimeAfter.value else prestate;
          if i != expected { return; }
        }
        if world.receipt.phase in {Prepared, StopRequested} && world.receipt.directory.None? {
          r := FinishUntouched();
          assert Owned(seen[looked]);
          return;
        }
      } else if world.service.Stopped? {
        if world.receipt.phase.Prepared? { return; }
      } else {
        return;
      }
      if active { Observe(); }
      r := StopAndRestore(active);
      assert Owned(seen[looked]);
    }

    /** Nothing was made and the unit still is the plan's: only the receipt changes. */
    method FinishUntouched() returns (r: Outcome)
      requires Sound() && !region.OfInstall? && world.receipt.phase in {Prepared, StopRequested}
      requires !company.Everywhere? ==> world.service.Running?
      requires company.Alone? ==> world.dropin.None? && (region.OfUndo? ==> world == region.from)
      modifies this`world, this`steps, this`refusals, this`seen
      ensures Sound() && old(seen) <= seen && old(steps) <= steps && refusals >= old(refusals)
      ensures r.Done? ==> world.receipt.phase.Restored? && refusals == old(refusals)
      ensures company.Alone? && refusals == old(refusals) ==> r.Done?
      ensures company.Alone? ==> world.dropin.None? && world.service == old(world).service
      ensures forall k: nat | k <= |old(steps)| && old(Reached(k)) :: Reached(k)
      ensures steps != old(steps) ==> exists i :: |old(seen)| <= i < |seen| && seen[i].dropin.None?
      ensures forall i :: |old(steps)| <= i < |steps| ==> steps[i].op.Journal?
    {
      hide Recorded, Linked, InstallReaches;
      r := Denied;
      var ok := Proceed();
      if !ok || world.dropin.Some? { return; }
      ghost var looked := |seen| - 1;
      ok := Record(world.receipt.(phase := Restored));
      assert seen[looked].dropin.None?;
      if ok { r := Done; }
    }

    /** The middle: ownership once more, the request to restore, and the stop of a unit that was active. */
    method StopAndRestore(active: bool) returns (r: Outcome)
      requires Sound() && !world.receipt.phase.Restored?
      requires !company.Everywhere? ==>
                 if active then world.service.Running? && Tied(world.receipt, prestate, world.service.incarnation)
                 else world.service.Stopped?
      requires active ==> exists j :: ObservedBefore(steps, |steps|, j, prestate, world.receipt)
      requires !region.OfInstall? && (company.Alone? && region.OfUndo? ==> world == region.from)
      modifies this`world, this`steps, this`refusals, this`seen
      ensures Sound() && old(seen) <= seen && old(steps) <= steps
      ensures r.Done? ==> world.receipt.phase.Restored?
      ensures company.Alone? && world.receipt.phase.Restored? ==> world.dropin.None? && world.service.Running?
      ensures company.Alone? && refusals == old(refusals) ==>
                (r.Done? <==>
                 && Owned(old(world))
                 && Owned(RestoreRequest(old(world))))
      ensures forall k: nat | k <= |old(steps)| && old(Reached(k)) :: Reached(k)
      ensures refusals >= old(refusals)
      ensures r.Done? ==> refusals == old(refusals)
      ensures steps != old(steps) ==> exists i :: |old(seen)| <= i < |seen| && Owned(seen[i])
      ensures r.Done? ==> SawTheRestart(|old(seen)|)
    {
      hide Recorded, Linked;
      r := Denied;
      var ok := Proceed();
      if !ok || !Owned(world) { return; }
      ghost var looked := |seen| - 1;
      ok := Record(world.receipt.(phase := RestoreRequested));
      assert Owned(seen[looked]);
      if !ok { return; }
      if active {
        RecordKeepsObservation(old(steps), steps, prestate, old(world).receipt, world.receipt);
        ok := StopObserved();
        if !ok { return; }
      }
      r := RemoveAndRestart();
      assert Owned(seen[looked]);
    }

    /** A recorded start is observed once more right before the stop. */
    method StopObserved() returns (ok: bool)
      requires Sound() && !region.OfInstall? && world.receipt.phase.RestoreRequested?
      requires !company.Everywhere? ==>
                 world.service.Running? && Tied(world.receipt, prestate, world.service.incarnation)
      requires exists j :: ObservedBefore(steps, |steps|, j, prestate, world.receipt)
      requires company.Alone? && region.OfUndo? ==> world == RestoreRequest(region.from)
      modifies this`world, this`steps, this`refusals
      ensures Sound() && old(steps) <= steps && world == old(world).(service := world.service)
      ensures if ok then refusals == old(refusals) && world.service.Stopped? else refusals >= old(refusals)
      ensures !company.Everywhere? ==> (ok <==> refusals == old(refusals))
      ensures forall k: nat | k <= |old(steps)| && old(Reached(k)) :: Reached(k)
      ensures ok && old(world).receipt.startIncarnation.Some? ==>
                && old(world).service == Running(old(world).receipt.startIncarnation.value)
                && exists j :: |old(steps)| <= j < |steps| && steps[j].op.ObserveUnit?
    {
      hide Recorded, Linked;
      if world.receipt.startIncarnation.Some? {
        if !world.service.Running? { return false; }
        if Some(world.service.incarnation) != world.receipt.startIncarnation { return false; }
        Observe();
      }
      ok := StopUnitOrFail();
      assert world.receipt.startIncarnation.Some? ==> steps[|old(steps)|].op.ObserveUnit?;
    }

    function NextUnseen(w: World): (incarnation: nat)
      ensures Unseen(w, prestate, incarnation)
    {
      1 + prestate + if w.receipt.startIncarnation.Some? then w.receipt.startIncarnation.value else 0
    }

    /** The end: the unit is proved stopped, ownership once more, then removal, then the restart. */
    method RemoveAndRestart() returns (r: Outcome)
      requires Sound() && (!company.Everywhere? ==> world.service.Stopped?) && world.receipt.phase.RestoreRequested?
      requires !region.OfInstall?
      requires company.Alone? && region.OfUndo? ==> world == RestoreRequest(region.from).(service := Stopped)
      modifies this`world, this`steps, this`refusals, this`seen
      ensures Sound() && old(seen) <= seen && old(steps) <= steps
      ensures r.Done? ==> world.receipt.phase.Restored?
      ensures company.Alone? && world.receipt.phase.Restored? ==> world.dropin.None? && world.service.Running?
      ensures company.Alone? && refusals == old(refusals) ==> (r.Done? <==> Owned(old(world)))
      ensures forall k: nat | k <= |old(steps)| && old(Reached(k)) :: Reached(k)
      ensures refusals >= old(refusals)
      ensures r.Done? ==> refusals == old(refusals)
      ensures steps != old(steps) ==> exists i :: |old(seen)| <= i < |seen| && seen[i].service.Stopped?
      ensures steps != old(steps) ==> exists i :: |old(seen)| <= i < |seen| && Owned(seen[i])
      ensures r.Done? ==> SawTheRestart(|old(seen)|)
    {
      hide Recorded, Linked;
      r := Denied;
      var ok := Proceed();
      ghost var looked := |seen| - 1;
      if !ok || !world.service.Stopped? { return; }
      ok := Proceed();
      if !ok || !Owned(world) { return; }
      ok := RemoveDropin();
      assert seen[looked].service.Stopped? && Owned(seen[looked + 1]);
      if !ok { return; }
      var pick: int := *;                         // never one that was
      var incarnation := if 0 <= pick && Unseen(world, prestate, pick) then pick else NextUnseen(world);
      if !world.service.Running? {
        ok := StartUnitOrFail(incarnation);
        if !ok { return; }
      }
      r := ProveRestored();
      assert seen[looked].service.Stopped? && Owned(seen[looked + 1]);
    }

    /** The configuration goes by its recorded identity, and then the recorded directory if it is empty. */
    method RemoveDropin() returns (ok: bool)
      requires Sound() && Owned(world) && (!company.Everywhere? ==> world.service.Stopped?)
      requires world.receipt.phase.RestoreRequested? && !region.OfInstall?
      requires company.Alone? && region.OfUndo? ==> world == RestoreRequest(region.from).(service := Stopped)
      modifies this`world, this`steps, this`refusals, this`seen
      ensures Sound() && old(seen) <= seen && old(steps) <= steps && world.receipt == old(world).receipt
      ensures !company.Everywhere? ==> world.service == old(world).service
      ensures ok && company.Alone? ==> world.dropin.None?
      ensures company.Alone? ==> (ok <==> refusals == old(refusals))
      ensures ok ==> refusals == old(refusals)
      ensures refusals >= old(refusals)
      ensures forall k: nat | k <= |old(steps)| && old(Reached(k)) :: Reached(k)
    {
      hide Recorded, Linked;
      ok := true;
      if world.dropin.Some? && world.dropin.value.config.Some? {
        Perform(RemoveConfig, world.(dropin := Some(world.dropin.value.(config := None))));
        ok := Proceed();
        if !ok { return; }
      }
      if world.dropin.Some? {
        if world.receipt.directory != Some(world.dropin.value.inode) { return false; }
        if world.dropin.value.config.Some? || world.dropin.value.others != map[] { return false; }   // rmdir refuses
        Perform(RemoveDirectory, world.(dropin := None));
      }
      ok := Proceed();
    }

    /** The restarted incarnation is recorded, waited for, and must still be the one that runs. */
    method ProveRestored() returns (r: Outcome)
      requires Sound() && (!company.Everywhere? ==> world.service.Running?) && !world.receipt.phase.Restored?
      requires !region.OfInstall?
      requires company.Alone? && region.OfUndo? && world.dropin.None? ==>
                 && world.receipt == RestoreRequest(region.from).receipt
                 && Unseen(region.from, prestate, world.service.incarnation)
      modifies this`world, this`steps, this`refusals, this`seen
      ensures Sound() && old(seen) <= seen && old(steps) <= steps
      ensures r.Done? ==> world.receipt.phase.Restored?
      ensures company.Alone? && world.receipt.phase.Restored? ==> world.dropin.None? && world.service.Running?
      ensures company.Alone? && refusals == old(refusals) ==> (r.Done? <==> old(world).dropin.None?)
      ensures old(world).dropin.None? ==> forall k: nat | k <= |old(steps)| && old(Reached(k)) :: Reached(k)
      ensures refusals >= old(refusals)
      ensures r.Done? ==> refusals == old(refusals)
      ensures r.Done? ==> SawTheRestart(|old(seen)|)
    {
      hide Recorded, Linked;
      r := Denied;
      var ok := Proceed();
      if !ok || !world.service.Running? { return; }
      ok := Record(world.receipt.(restorationIncarnation := Some(world.service.incarnation)));
      if !ok { return; }
      ok := Proceed();
      if !ok || world.dropin.Some? { return; }
      if !world.service.Running? || world.receipt.restorationIncarnation != Some(world.service.incarnation) { return; }
      ghost var looked := |seen| - 1;
      ok := Record(world.receipt.(phase := Restored));
      assert seen[looked].dropin.None?;
      if ok { r := Done; }
    }

    /** install_native_allocation from its recorded receipt, without the handler; requested: the receipt in
        memory has left PREPARED. */
    method InstallBody() returns (r: Outcome, requested: bool)
      requires Sound() && region.OfInstall?
      requires world.receipt == FRESH_RECEIPT && world.service == Running(prestate) && world.dropin.None?
      modifies this`world, this`steps, this`refusals, this`seen
      ensures Sound() && old(seen) <= seen && old(steps) <= steps && Reached(|old(steps)|)
      ensures r.Done? ==> world.receipt.phase.DependencyObserved? && Owned(world)
      ensures !requested ==> r.Denied? && steps == old(steps)
      ensures company.Alone? && refusals == old(refusals) ==>
                && r.Done? && world.dropin.Some? && world.dropin.value.config.Some?
                && world.dropin.value.others == map[]
                && world.service.Running? && world.service.incarnation != prestate
      ensures refusals >= old(refusals)
      ensures r.Done? ==> refusals == old(refusals)
      ensures world.receipt.phase !in {Prepared, StopRequested} ==>
                exists i :: |old(seen)| <= i < |seen| && seen[i].receipt.phase.StopRequested?
                            && seen[i].service.Stopped? && seen[i].dropin.None?
    {
      hide Recorded, Linked, Owned;
      r, requested := Denied, false;
      var ok := Proceed();
      if !ok || world.service != Running(prestate) { return; }
      Observe();
      requested := true;
      ghost var observed, receipt := steps, world.receipt;
      ok := Record(world.receipt.(phase := StopRequested));
      if !ok { return; }
      RecordKeepsObservation(observed, steps, prestate, receipt, world.receipt);
      ok := StopUnitOrFail();
      if !ok { return; }
      ok := Proceed();
      ghost var looked := |seen| - 1;
      if !ok || !world.service.Stopped? || world.dropin.Some? { return; }
      r := ConfigureAndStart();
      assert seen[looked].receipt.phase.StopRequested?;
    }

    /** The drop-in directory, its configuration, and the start. */
    method ConfigureAndStart() returns (r: Outcome)
      requires Sound() && region.OfInstall? && world.receipt == FRESH_RECEIPT.(phase := StopRequested)
      requires company.Alone? ==> world.service.Stopped? && world.dropin.None? && InstallReaches(world, prestate)
      modifies this`world, this`steps, this`refusals, this`seen
      ensures Sound() && old(seen) <= seen && old(steps) <= steps && refusals >= old(refusals)
      ensures forall k: nat | k <= |old(steps)| && old(Reached(k)) :: Reached(k)
      ensures r.Done? ==> world.receipt.phase.DependencyObserved? && Owned(world) && refusals == old(refusals)
      ensures company.Alone? && refusals == old(refusals) ==>
                && r.Done? && world.dropin.Some? && world.dropin.value.config.Some?
                && world.dropin.value.others == map[]
                && world.service.Running? && world.service.incarnation != prestate
    {
      hide Recorded, Linked, Owned;
      r := Denied;
      assert Reached(|old(steps)|);
      var ok := CreateDirectory();
      if !ok { return; }
      var name: string := *;                      // 16 random bytes in hexadecimal
      ok := CreateConfiguration(name);
      assert Reached(|old(steps)|);
      if !ok { return; }
      ok := Proceed();
      if !ok { return; }
      r := StartConfigured();
    }

    /** The request for the configuration is recorded, then the drop-in directory is made and recorded. */
    method CreateDirectory() returns (ok: bool)
      requires Sound() && region.OfInstall? && world.receipt == FRESH_RECEIPT.(phase := StopRequested)
      requires company.Alone? ==> world.service.Stopped? && world.dropin.None?
      modifies this`world, this`steps, this`refusals, this`seen
      ensures Sound() && old(seen) <= seen && old(steps) <= steps
      ensures forall k: nat | k <= |old(steps)| && old(Reached(k)) :: Reached(k)
      ensures ok ==> world.receipt.directory.Some? &&
                     world.receipt == FRESH_RECEIPT.(phase := ConfigRequested, directory := world.receipt.directory)
      ensures ok && company.Alone? ==>
                && world.dropin == Some(Dropin(world.receipt.directory.value, None, map[]))
                && world.service.Stopped? && InstallReaches(world, prestate)
      ensures refusals >= old(refusals) && (company.Alone? && refusals == old(refusals) ==> ok)
      ensures ok ==> refusals == old(refusals)
    {
      hide Recorded, Linked, Owned;
      ok := Record(world.receipt.(phase := ConfigRequested));
      if !ok { return; }
      if world.dropin.Some? { return false; }
      var directory: nat := *;
      Perform(MakeDirectory, world.(dropin := Some(Dropin(directory, None, map[]))));
      ok := Proceed();
      if !ok { return; }
      if world.dropin.None? { return false; }
      ok := Record(world.receipt.(directory := Some(world.dropin.value.inode)));
    }

    /** A check saw the drop-in gone and the restarted incarnation, which the receipt names, still running. */
    ghost predicate SawTheRestart(k: nat)
      reads this
    {
      exists i :: && k <= i < |seen| && seen[i].dropin.None? && seen[i].service.Running?
                  && seen[i].receipt.restorationIncarnation == Some(seen[i].service.incarnation)
                  && seen[i].receipt.restorationIncarnation == world.receipt.restorationIncarnation
    }

    /** The directory still is the recorded one. */
    predicate HoldsDirectory()
      reads this
    {
      world.dropin.Some? && world.receipt.directory == Some(world.dropin.value.inode)
    }

    /** _native_create_configuration: staged under an unused name, recorded write-ahead, linked exclusively and
        by that name, and the name dropped, whatever inode it holds by then. */
    method CreateConfiguration(name: string) returns (ok: bool)
      requires Sound() && region.OfInstall? && world.receipt.phase.ConfigRequested?
      requires world.receipt.directory.Some? && world.receipt.config.None?
      requires company.Alone? ==> world.dropin == Some(Dropin(world.receipt.directory.value, None, map[]))
      requires company.Alone? ==> InstallReaches(world, prestate)
      modifies this`world, this`steps, this`refusals, this`seen
      ensures Sound() && old(seen) <= seen && old(steps) <= steps
      ensures forall k: nat | k <= |old(steps)| && old(Reached(k)) :: Reached(k)
      ensures world.receipt.phase.ConfigRequested? && world.receipt.directory == old(world).receipt.directory
      ensures ok ==> world.receipt == old(world).receipt.(config := world.receipt.config) && world.receipt.config.Some?
      ensures ok && company.Alone? ==> Configured(world)
      ensures refusals >= old(refusals) && (company.Alone? && refusals == old(refusals) ==> ok)
      ensures ok ==> refusals == old(refusals)
    {
      hide Does, StopIsTied, Recorded, Linked;
      assert Reached(|old(steps)|);
      ok := Proceed();
      if !ok || !HoldsDirectory() || name in world.dropin.value.others { return false; }
      var parent := world.dropin.value.inode;
      var inode: nat := *;
      var file := Staged(name, inode);
      StageDoes(world, file, prestate, company);
      Perform(Stage(file), world.(dropin := Some(WithFile(world.dropin.value, file))));
      ghost var staged := steps;
      ok := Record(world.receipt.(config := Some(inode)));
      if ok { ok := LinkStaged(file); }
      StaysStaged(staged, steps, file);
      assert Reached(|old(steps)|);
      var swept := SweepStaged(file, parent);
      ok := ok && swept;
    }

    /** The staging name goes, whatever inode it holds by then; others may have replaced the directory. */
    method SweepStaged(file: Staged, parent: nat) returns (ok: bool)
      requires Sound() && StagedBefore(steps, |steps|, file) && region.OfInstall?
      requires company.Alone? ==>
                 && InstallReaches(world, prestate) && world.receipt.phase.ConfigRequested?
                 && HoldsDirectory() && world.dropin.value.inode == parent
                 && world.dropin.value.others == map[file.name := file.inode]
      modifies this`world, this`steps, this`refusals, this`seen
      ensures Sound() && old(seen) <= seen && old(steps) <= steps && world.receipt == old(world).receipt
      ensures refusals == if ok then old(refusals) else old(refusals) + 1
      ensures forall k: nat | k <= |old(steps)| && old(Reached(k)) :: Reached(k)
      ensures company.Alone? ==> world == old(world).(dropin := Some(WithoutFile(old(world).dropin.value, file.name)))
      ensures world.dropin.Some? && world.dropin.value.inode == parent ==> file.name !in world.dropin.value.others
    {
      hide Does, StopIsTied, Recorded, Linked;
      ok := Proceed();
      if world.dropin.Some? && world.dropin.value.inode == parent && file.name in world.dropin.value.others {
        SweepDoes(world, file, prestate, company);
        Perform(Sweep(file), world.(dropin := Some(WithoutFile(world.dropin.value, file.name))));
      }
    }

    /** The second half before the sweep: the guard once more, then the exclusive link by name. */
    method LinkStaged(file: Staged) returns (ok: bool)
      requires Sound() && region.OfInstall?
      requires world.receipt.phase.ConfigRequested? && world.receipt.config == Some(file.inode)
      requires company.Alone? ==>
                 && InstallReaches(world, prestate) && HoldsDirectory() && world.dropin.value.config.None?
                 && world.dropin.value.others == map[file.name := file.inode]
      modifies this`world, this`steps, this`refusals, this`seen
      ensures Sound() && old(seen) <= seen && old(steps) <= steps && world.receipt == old(world).receipt
      ensures forall k: nat | k <= |old(steps)| && old(Reached(k)) :: Reached(k)
      ensures company.Alone? ==> HoldsDirectory() && world.dropin.value.others == map[file.name := file.inode]
      ensures ok && company.Alone? ==> world.dropin.value.config == Some(Config(file.inode, true))
      ensures refusals >= old(refusals) && (company.Alone? && refusals == old(refusals) ==> ok)
      ensures ok ==> refusals == old(refusals)
    {
      hide StopIsTied, Recorded, Linked;
      ok := Proceed();
      if !ok { return; }
      if !HoldsDirectory() || world.dropin.value.config.Some? { return false; }
      if file.name !in world.dropin.value.others { return false; }
      var linked := world.dropin.value.others[file.name];
      var alike: bool := *;                       // a foreign inode may have the expected content
      var config := Config(linked, linked == file.inode || alike);
      NoStop(LinkConfig(file.name), world, prestate, company);
      Perform(LinkConfig(file.name), world.(dropin := Some(world.dropin.value.(config := Some(config)))));
      ok := Proceed();
    }

    /** Reload, start, and the observations that accept the new incarnation. */
    method StartConfigured() returns (r: Outcome)
      requires Sound() && region.OfInstall? && world.receipt.phase.ConfigRequested?
      requires world.receipt.startIncarnation.None? && world.receipt.runtimeAfter.None? && world.receipt.config.Some?
      requires company.Alone? ==> Configured(world) && InstallReaches(world, prestate)
      modifies this`world, this`steps, this`refusals, this`seen
      ensures Sound() && old(seen) <= seen && old(steps) <= steps
      ensures forall k: nat | k <= |old(steps)| && old(Reached(k)) :: Reached(k)
      ensures r.Done? ==> world.receipt.phase.DependencyObserved? && Owned(world)
      ensures refusals >= old(refusals) && (company.Alone? && refusals == old(refusals) ==> r.Done?)
      ensures r.Done? ==> refusals == old(refusals)
    {
      hide Recorded, Linked, Owned;
      r := Denied;
      var ok := Record(world.receipt.(phase := StartRequested));
      if !ok { return; }
      var pick: int := *;
      var incarnation := if 0 <= pick && pick != prestate then pick else prestate + 1;   // never one that was
      if !world.service.Running? {
        ok := StartUnitOrFail(incarnation);
        if !ok { return; }
      }
      ok := Proceed();
      if !ok || !world.service.Running? { return; }
      ok := Record(world.receipt.(startIncarnation := Some(world.service.incarnation)));
      if !ok { return; }
      r := AcceptIncarnation();
    }

    /** The started incarnation is the one that runs, before and after it is recorded as accepted. */
    method AcceptIncarnation() returns (r: Outcome)
      requires Sound() && region.OfInstall? && world.receipt.phase.StartRequested?
      requires world.receipt.startIncarnation.Some? && world.receipt.runtimeAfter.None?
      requires company.Alone? ==> InstallReaches(world, prestate)
      modifies this`world, this`steps, this`refusals, this`seen
      ensures Sound() && old(seen) <= seen && old(steps) <= steps
      ensures forall k: nat | k <= |old(steps)| && old(Reached(k)) :: Reached(k)
      ensures r.Done? ==> world.receipt.phase.DependencyObserved? && Owned(world)
      ensures r.Done? ==> world.receipt.startIncarnation == old(world).receipt.startIncarnation
      ensures r.Done? ==> world.receipt.runtimeAfter == world.receipt.startIncarnation
      ensures refusals >= old(refusals) && (company.Alone? && refusals == old(refusals) ==> r.Done?)
      ensures r.Done? ==> refusals == old(refusals)
    {
      hide Recorded, Linked;
      r := Denied;
      var ok := Proceed();
      if !ok || !world.service.Running? || Some(world.service.incarnation) != world.receipt.startIncarnation { return; }
      ok := Record(world.receipt.(runtimeAfter := Some(world.service.incarnation)));
      if !ok { return; }
      ok := Proceed();
      if !ok || !Owned(world) || !world.service.Running?
         || Some(world.service.incarnation) != world.receipt.runtimeAfter { return; }
      ok := Record(world.receipt.(phase := DependencyObserved));
      if !ok { return; }
      ok := Proceed();
      if ok && Owned(world) { r := Done; }
    }

    /** install_native_allocation with its handler: once the stop is requested, a failure rolls back. */
    method Install() returns (r: Outcome)
      requires Sound() && world.receipt == FRESH_RECEIPT && world.service == Running(prestate) && world.dropin.None?
      modifies this
      ensures Sound() && old(seen) <= seen && old(steps) <= steps
      ensures r.Done? ==> world.receipt.phase.DependencyObserved? && Owned(world)
      ensures r.Done? && company.Alone? ==> InstallReaches(world, prestate)
      ensures rollbacks == old(rollbacks) || (r.Denied? && rollbacks == old(rollbacks) + 1)
      ensures r.Denied? && steps != old(steps) ==> rollbacks == old(rollbacks) + 1
      ensures r.Denied? && company.Alone? && world.receipt.phase.Restored? ==>
          world.dropin.None? && world.service.Running?
      ensures company.Alone? && refusals == old(refusals) ==>
                && r.Done? && world.dropin.Some? && world.dropin.value.config.Some?
                && world.dropin.value.others == map[]
                && world.service.Running? && world.service.incarnation != prestate
      ensures refusals >= old(refusals)
      ensures r.Done? ==> refusals == old(refusals)
    {
      region := OfInstall;
      var requested;
      r, requested := InstallBody();
      if r.Denied? && requested {
        var undone := Rollback();
      }
    }
  }
}
