/** One governed installation run: placement, input publication, lifecycle, witness publication, and the
    compensation that each failure is allowed.  Failures are ordinary exceptions, at any point. */
module WholeRun {

  datatype Exit = Normal | Raised(cause: Cause)

  /** WitnessPublicationUncertain, RuntimeCompensationUncertain, or any other exception. */
  datatype Cause = WitnessUncertain | RuntimeUncertain | Plain

  /** Unresolved: a rollback was stopped, the installer's own or the handler's, with new files still in place. */
  datatype Payload = Predecessor | Unresolved | Installed | RolledBack

  datatype Inputs = Captured | IntentOnly | Published | Uncertain | Restored

  /** Fault: a check or a call raised.  HandlerBegun: a handler or the owner's cleanup took over. */
  datatype Event =
    | Fault | HandlerBegun
    | PayloadInstalled | InputsIntended | InputsPublished
    | RuntimeAttempted | RuntimeRestored | LifecycleObserved | WitnessLinked
    | PayloadRolledBack | PayloadUnresolved | InputsRestored | PredecessorRestarted

  predicate Compensation(e: Event) {
    e in {PayloadRolledBack, PayloadUnresolved, InputsRestored, PredecessorRestarted}
  }

  /** What changes the host; a stopped rollback is the trace of a fault. */
  predicate Effect(e: Event) { e !in {Fault, HandlerBegun, PayloadUnresolved} }

  /** The last `a` was not yet answered by a `b`. */
  predicate Open(log: seq<Event>, a: Event, b: Event) {
    log != [] &&
    (var last := log[|log| - 1]; last == a || (last != b && Open(log[..|log| - 1], a, b)))
  }

  /** What may happen after what already happened. */
  predicate Allowed(past: seq<Event>, e: Event) {
    && (Compensation(e) ==> WitnessLinked !in past)
    && (Effect(e) ==> !Open(past, Fault, HandlerBegun))
    && (e == PredecessorRestarted ==> !Open(past, InputsIntended, InputsRestored))
    && (e == PayloadRolledBack || e == PayloadUnresolved ==> !Open(past, RuntimeAttempted, RuntimeRestored))
    && (e == InputsRestored || e == PredecessorRestarted ==>
          !Open(past, PayloadInstalled, PayloadRolledBack) && !Open(past, PayloadUnresolved, PayloadRolledBack))
  }

  predicate LogIsSafe(log: seq<Event>) {
    log == [] || (LogIsSafe(log[..|log| - 1]) && Allowed(log[..|log| - 1], log[|log| - 1]))
  }

  /** The witness was linked once, as the last thing. */
  predicate LinkedLast(log: seq<Event>) {
    log != [] && log[|log| - 1] == WitnessLinked && WitnessLinked !in log[..|log| - 1]
  }

  /** The runtime was given back after the witness name was linked: the owner's cleanups also run then. */
  predicate RestoredAfterLink(log: seq<Event>) {
    exists i, j :: 0 <= i < j < |log| && log[i] == WitnessLinked && log[j] == RuntimeRestored
  }

  /** What a complete request does between placement and witness: the runtime, if it is replaced, and then the
      observations of the whole lifecycle. */
  function LifecycleEvents(replacement: bool): seq<Event> {
    (if replacement then [RuntimeAttempted] else []) + [LifecycleObserved]
  }

  /** What follows the placement in a run that succeeds. */
  function Construction(successorInputs: bool, complete: bool, replacement: bool): seq<Event> {
    (if successorInputs then [InputsIntended, InputsPublished] else [])
    + (if complete then LifecycleEvents(replacement) else []) + [WitnessLinked]
  }

  lemma ForwardThenForward(a: seq<Event>, b: seq<Event>, c: seq<Event>)
    requires OnlyForward(a, b) && OnlyForward(b, c)
    ensures OnlyForward(a, c) && (Handled(b, c) ==> Handled(a, c))
  {
  }

  lemma AppendedIsForward(a: seq<Event>, more: seq<Event>)
    requires forall e :: e in more ==> !Compensation(e)
    ensures OnlyForward(a, a + more)
  {
  }

  lemma NothingOpen()
    ensures forall a, b :: !Open([], a, b)
  {
  }

  lemma LinkedAtTheEnd(log: seq<Event>)
    requires WitnessLinked !in log
    ensures LinkedLast(log + [WitnessLinked])
  {
    assert (log + [WitnessLinked])[..|log|] == log;
  }

  /** Nothing was compensated since. */
  ghost predicate OnlyForward(before: seq<Event>, after: seq<Event>) {
    before <= after && forall i :: |before| <= i < |after| ==> !Compensation(after[i])
  }

  /** A handler has begun since. */
  ghost predicate Handled(before: seq<Event>, after: seq<Event>) {
    before <= after && exists i :: |before| <= i < |after| && after[i] == HandlerBegun
  }

  class Run {
    // what the source keeps
    var completed: bool                 // publication['completed']
    var attempted: bool                 // runtime_disposition
    var restored: bool
    var quiesced: bool                  // the predecessor's units were told to stop
    // what the environment holds
    var linked: bool
    var payload: Payload
    var inputs: Inputs
    ghost var log: seq<Event>
    ghost var faults: nat               // checks and calls that raised
    ghost var handled: nat              // failures that reached the compensating handler

    constructor ()
      ensures Valid() && !linked && !completed && !attempted && !quiesced && log == [] && faults == handled == 0
      ensures payload == Predecessor && inputs == Captured
    {
      completed, attempted, restored, quiesced, linked := false, false, false, false, false;
      payload, inputs, log, faults, handled := Predecessor, Captured, [], 0, 0;
    }

    ghost predicate Valid()
      reads this
    {
      && LogIsSafe(log)
      && (linked <==> WitnessLinked in log)
      && (Open(log, InputsIntended, InputsRestored) <==> inputs in {IntentOnly, Uncertain, Published})
      && (Open(log, RuntimeAttempted, RuntimeRestored) <==> attempted && !restored)
      && (payload.Installed? ==> Open(log, PayloadInstalled, PayloadRolledBack))
      && (Open(log, PayloadInstalled, PayloadRolledBack) ==> HasNewFiles())
      && (Open(log, PayloadUnresolved, PayloadRolledBack) <==> payload.Unresolved?)
    }

    /** No fault since the last handler began. */
    ghost predicate Clear()
      reads this
    {
      !Open(log, Fault, HandlerBegun)
    }

    predicate HasNewFiles()
      reads this
    {
      payload.Installed? || payload.Unresolved?
    }

    method Log(e: Event)
      requires LogIsSafe(log) && Allowed(log, e)
      modifies this`log
      ensures LogIsSafe(log) && log == old(log) + [e]
      ensures forall a, b :: Open(log, a, b) <==> e == a || (e != b && Open(old(log), a, b))
      ensures WitnessLinked in log <==> e == WitnessLinked || WitnessLinked in old(log)
    {
      ghost var past := log;
      log := log + [e];
      assert log[..|log| - 1] == past;
    }

    // ----- effects

    method InstallPayload()
      requires Valid() && Clear() && payload.Predecessor? && !linked
      modifies this`payload, this`log
      ensures Valid() && Clear() && payload == Installed && log == old(log) + [PayloadInstalled]
    {
      hide LogIsSafe, Open;
      Log(PayloadInstalled);
      payload := Installed;
    }

    method AttemptRuntime()
      requires Valid() && Clear()
      modifies this`attempted, this`restored, this`log
      ensures Valid() && Clear() && attempted && !restored && log == old(log) + [RuntimeAttempted]
    {
      hide LogIsSafe, Open;
      Log(RuntimeAttempted);
      attempted, restored := true, false;
    }

    method RestoreRuntime()
      requires Valid() && Clear() && attempted
      modifies this`restored, this`log
      ensures Valid() && Clear() && restored && log == old(log) + [RuntimeRestored]
    {
      hide LogIsSafe, Open;
      Log(RuntimeRestored);
      restored := true;
    }

    method FinishObservations()
      requires Valid() && Clear()
      modifies this`log
      ensures Valid() && Clear() && log == old(log) + [LifecycleObserved]
    {
      hide LogIsSafe, Open;
      Log(LifecycleObserved);
    }

    method LinkWitness()
      requires Valid() && Clear()
      modifies this`linked, this`log
      ensures Valid() && Clear() && linked && log == old(log) + [WitnessLinked]
    {
      hide LogIsSafe, Open;
      Log(WitnessLinked);
      linked := true;
    }

    method RollBackPayload()
      requires Valid() && Clear() && payload.Installed? && !linked && (attempted ==> restored)
      modifies this`payload, this`log
      ensures Valid() && Clear() && payload == RolledBack && log == old(log) + [PayloadRolledBack]
    {
      hide LogIsSafe, Open;
      Log(PayloadRolledBack);
      payload := RolledBack;
    }

    method LeaveUnresolved()
      requires Valid() && !payload.RolledBack? && !linked && (attempted ==> restored)
      modifies this`payload, this`log
      ensures Valid() && payload == Unresolved && log == old(log) + [PayloadUnresolved]
    {
      hide LogIsSafe, Open;
      Log(PayloadUnresolved);
      payload := Unresolved;
    }

    method RestoreInputs()
      requires Valid() && Clear() && inputs.Published? && !linked && !HasNewFiles()
      modifies this`inputs, this`log
      ensures Valid() && Clear() && inputs == Restored && log == old(log) + [InputsRestored]
    {
      hide LogIsSafe, Open;
      Log(InputsRestored);
      inputs := Restored;
    }

    method RestartPredecessor()
      requires Valid() && Clear() && !HasNewFiles() && !linked && (inputs.Captured? || inputs.Restored?)
      modifies this`log
      ensures Valid() && Clear() && log == old(log) + [PredecessorRestarted]
    {
      hide LogIsSafe, Open;
      Log(PredecessorRestarted);
    }

    method IntendInputs()
      requires Valid() && Clear() && inputs.Captured?
      modifies this`inputs, this`log
      ensures Valid() && Clear() && inputs == IntentOnly && log == old(log) + [InputsIntended]
    {
      hide LogIsSafe, Open;
      Log(InputsIntended);
      inputs := IntentOnly;
    }

    /** A handler takes over. */
    method BeginHandler()
      requires Valid()
      modifies this`log
      ensures Valid() && Clear() && log == old(log) + [HandlerBegun]
    {
      hide LogIsSafe, Open;
      Log(HandlerBegun);
    }

    // ----- the steps of the run

    /** A check or a call that may raise an ordinary exception. */
    method Try() returns (x: Exit)
      requires Valid()
      modifies this`faults, this`log
      ensures Valid() && (x == Normal || x == Raised(Plain))
      ensures faults == if x == Normal then old(faults) else old(faults) + 1
      ensures log == if x == Normal then old(log) else old(log) + [Fault]
      ensures Clear() <==> x == Normal && old(Clear())
    {
      hide LogIsSafe, Open;
      var ok: bool := *;
      x := if ok then Normal else Raised(Plain);
      if !ok {
        faults := faults + 1;
        Log(Fault);
      }
    }

    /** The installer: it compensates its own failure, and that rollback may be stopped too. */
    method PlacePayload() returns (x: Exit)
      requires Valid() && Clear() && payload.Predecessor? && !linked && (attempted ==> restored)
      modifies this`payload, this`log, this`faults
      ensures Valid() && (x == Normal || x == Raised(Plain)) && faults == old(faults) + (if x == Normal then 0 else 1)
      ensures log == old(log) + (if payload.Installed? then [PayloadInstalled]
                                 else if payload.Unresolved? then [Fault, PayloadUnresolved] else [Fault])
      ensures x == Normal <==> payload.Installed?
      ensures x == Normal ==> Clear()
      ensures !payload.RolledBack?
    {
      hide LogIsSafe, Open, Allowed;
      x := Try();
      if x == Normal {
        InstallPayload();
      } else {
        var resolved: bool := *;
        if !resolved { LeaveUnresolved(); }
      }
    }

    /** The rollback of an installed payload, which may be stopped. */
    method UndoPayload() returns (x: Exit)
      requires Valid() && Clear() && payload.Installed? && !linked && (attempted ==> restored)
      modifies this`payload, this`log, this`faults
      ensures Valid() && (x == Normal || x == Raised(Plain)) && faults == old(faults) + (if x == Normal then 0 else 1)
      ensures x == Normal <==> payload.RolledBack?
      ensures log == old(log) + (if payload.RolledBack? then [PayloadRolledBack]
                                 else if payload.Unresolved? then [Fault, PayloadUnresolved] else [Fault])
      ensures x == Normal ==> Clear()
      ensures !payload.Predecessor?
    {
      hide LogIsSafe, Open, Allowed;
      x := Try();
      if x == Normal {
        RollBackPayload();
      } else {
        var begun: bool := *;
        if begun { LeaveUnresolved(); }
      }
    }

    /** The witness `atomic`: an exception before the link is ordinary; from the link on it is uncertainty. */
    method PublishWitness() returns (x: Exit)
      requires Valid() && Clear() && !linked
      modifies this`linked, this`log, this`faults
      ensures Valid() && (x == Normal ==> Clear())
      ensures faults >= old(faults)
      ensures linked <==> x == Normal || x == Raised(WitnessUncertain)
      ensures x != Raised(RuntimeUncertain)
      ensures log == old(log) + (if x == Normal then [WitnessLinked]
                                 else if linked then [WitnessLinked, Fault] else [Fault])
      ensures x == Normal <==> faults == old(faults)
    {
      hide LogIsSafe, Open, Allowed;
      x := Try();                               // staging, parent and predecessor checks, the collision
      if x != Normal { return; }
      LinkWitness();
      x := Try();                               // fsync, staging removal, readback
      if x != Normal { return Raised(WitnessUncertain); }
    }

    /** finalize: whatever happens after the link, the publication is recorded as possibly complete. */
    method Finalize() returns (x: Exit)
      requires Valid() && Clear() && !linked && !completed
      modifies this`linked, this`log, this`completed, this`faults
      ensures Valid() && (linked <==> completed) && (x == Normal ==> linked && Clear())
      ensures faults >= old(faults) && (x == Normal <==> faults == old(faults))
      ensures log == old(log) + (if x == Normal then [WitnessLinked]
                                 else if linked then [WitnessLinked, Fault] else [Fault])
      ensures x != Raised(RuntimeUncertain)
    {
      hide LogIsSafe, Open, Allowed;
      x := Try();                               // material, receipt, lifecycle and unit checks
      if x != Normal { return; }
      x := PublishWitness();
      if x == Raised(WitnessUncertain) {
        completed := true;
        return;
      }
      if x != Normal { return; }
      completed := true;
      x := Try();                               // the retired-generation guards after publication
    }

    /** input_owner.publish: ordinary up to the signed intent, uncertain from the first exchange on. */
    method PublishInputs() returns (x: Exit)
      requires Valid() && Clear() && inputs.Captured?
      modifies this`inputs, this`log, this`faults
      ensures Valid() && x != Raised(RuntimeUncertain) && (x == Normal ==> Clear())
      ensures log == old(log) + (if x == Normal then [InputsIntended, InputsPublished]
                                 else if inputs.Captured? then [Fault] else [InputsIntended, Fault])
      ensures faults >= old(faults)
      ensures x == Normal <==> inputs.Published?
      ensures x == Normal <==> faults == old(faults)
      ensures x == Raised(WitnessUncertain) <==> inputs.Uncertain?
    {
      hide LogIsSafe, Open, Allowed;
      x := Try();
      if x != Normal { return; }
      IntendInputs();
      x := Try();
      if x != Normal { return; }
      inputs := Uncertain;
      x := Try();
      if x != Normal { return Raised(WitnessUncertain); }
      CompletePublication();
    }

    method CompletePublication()
      requires Valid() && Clear() && inputs.Uncertain?
      modifies this`inputs, this`log
      ensures Valid() && Clear() && inputs == Published && log == old(log) + [InputsPublished]
    {
      hide LogIsSafe, Open;
      Log(InputsPublished);
      inputs := Published;
    }

    /** input_owner.restore on the live object: nothing to do before publication, refused in between. */
    method ReturnInputs() returns (x: Exit)
      requires Valid() && Clear() && !linked && !HasNewFiles()
      modifies this`inputs, this`log, this`faults
      ensures Valid() && (x == Normal || x == Raised(Plain) || x == Raised(WitnessUncertain))
      ensures faults >= old(faults) && (x == Normal ==> Clear())
      ensures x == Normal ==> inputs == if old(inputs).Published? then Restored else old(inputs)
      ensures x == Normal ==> inputs.Captured? || inputs.Restored?
      ensures faults == old(faults) ==> (x == Normal <==> old(inputs) in {Captured, Published})
      ensures faults > old(faults) ==> x != Normal
      ensures log == old(log) + (if old(inputs).Published? && inputs.Restored? then [InputsRestored] else [])
                     + (if faults == old(faults) then [] else [Fault])
      ensures faults > old(faults) ==> !Clear()
      ensures inputs != old(inputs) ==> old(inputs).Published? && (inputs.Uncertain? || inputs.Restored?)
      ensures x == Raised(WitnessUncertain) <==> old(inputs).Published? && inputs.Uncertain?
    {
      hide LogIsSafe, Open, Allowed;
      x := Try();
      if x != Normal { return; }
      match inputs
      case Captured => x := Normal;
      case Restored => x := Raised(Plain);
      case IntentOnly => x := Raised(Plain);
      case Uncertain => x := Raised(Plain);
      case Published =>
        x := Try();                             // the exchanges back
        if x != Normal {
          inputs := Uncertain;
          return Raised(WitnessUncertain);
        }
        RestoreInputs();
        x := Try();                             // the closing verify
    }

    /** _complete_kernel_lifecycle: the runtime replacement, the observations, finalize; on failure the
        cleanups, which may restore the runtime, raise in the middle, or never reach it. */
    method Lifecycle(replacement: bool) returns (x: Exit)
      requires Valid() && Clear() && !linked && !completed && !attempted
      modifies this`linked, this`log, this`completed, this`attempted, this`restored, this`faults
      ensures Valid() && (linked <==> completed) && (x == Normal ==> linked && Clear() && LinkedLast(log))
      ensures OnlyForward(old(log), log) && (x.Raised? ==> Handled(old(log), log))
      ensures x.Raised? && attempted && !restored ==> !Clear()
      ensures faults >= old(faults) && (x == Normal <==> faults == old(faults))
      ensures x == Normal ==> log == old(log) + LifecycleEvents(replacement) + [WitnessLinked]
      ensures attempted ==> replacement
      ensures x == Raised(RuntimeUncertain) ==> attempted && !restored
    {
      hide LogIsSafe, Open, Allowed, LinkedLast, OnlyForward, Handled, LifecycleEvents;
      x := ObserveLifecycle(replacement);
      ghost var observed := log;
      if x == Normal {
        LinkedAtTheEnd(log);
        x := Finalize();
        AppendedIsForward(observed, if linked then [WitnessLinked, Fault] else [Fault]);
        AppendedIsForward(observed, [WitnessLinked]);
        ForwardThenForward(old(log), observed, log);
      }
      ghost var built := log;
      if x != Normal {
        x := CleanUp(x);
        ForwardThenForward(old(log), built, log);
      }
    }

    /** The contexts up to the last observation. */
    method ObserveLifecycle(replacement: bool) returns (x: Exit)
      requires Valid() && Clear() && !linked && !attempted
      modifies this`log, this`attempted, this`restored, this`faults
      ensures Valid() && OnlyForward(old(log), log) && (x == Normal ==> Clear()) && (x == Normal || x == Raised(Plain))
      ensures faults >= old(faults) && (x == Normal <==> faults == old(faults))
      ensures x == Normal ==> log == old(log) + LifecycleEvents(replacement)
      ensures attempted ==> replacement && !restored
      ensures x == Normal ==> attempted == replacement
    {
      hide LogIsSafe, Open, Allowed, OnlyForward;
      x := Try();
      AppendedIsForward(old(log), [Fault]);
      AppendedIsForward(old(log), []);
      AppendedIsForward(old(log), [RuntimeAttempted, Fault]);
      AppendedIsForward(old(log), LifecycleEvents(replacement));
      if x == Normal && replacement {
        AttemptRuntime();
        x := Try();
      }
      if x == Normal { x := Try(); }            // the resident model and the nested observations
      assert x != Normal ==> log == old(log) + [Fault] || log == old(log) + [RuntimeAttempted, Fault];
      if x == Normal { FinishObservations(); }
      assert x == Normal ==> log == old(log) + LifecycleEvents(replacement);
    }

    /** The owner's cleanups after a failure. */
    method CleanUp(failure: Exit) returns (x: Exit)
      requires Valid() && failure.Raised? && failure != Raised(RuntimeUncertain) && (attempted ==> !restored)
      modifies this`restored, this`log, this`faults
      ensures Valid() && x.Raised? && faults >= old(faults)
      ensures OnlyForward(old(log), log) && Handled(old(log), log)
      ensures x == Raised(RuntimeUncertain) ==> attempted && !restored
      ensures attempted && !restored ==> !Clear()
      ensures attempted && restored && !Clear() ==> x == Raised(Plain)
      ensures faults == old(faults) ==> x == failure
    {
      hide LogIsSafe, Open, Allowed;
      x := failure;
      BeginHandler();
      var reached := Try();                     // later cleanups
      assert log[|old(log)|] == HandlerBegun;
      if reached != Normal {
        var evidence: bool := *;                // a residency witness that may be visible
        return Raised(if evidence then WitnessUncertain else Plain);
      }
      if attempted {
        var proven := Try();                    // rollback and independent readback
        assert log[|old(log)|] == HandlerBegun;
        if proven != Normal { return Raised(RuntimeUncertain); }
        RestoreRuntime();
      }
      var rest := Try();                        // Interface, Operations, Authority
      assert log[|old(log)|] == HandlerBegun;
      if rest != Normal { x := rest; }
    }

    /** The guarded body after placement. */
    method Construct(successorInputs: bool, complete: bool, replacement: bool) returns (x: Exit)
      requires Valid() && Clear() && payload.Installed? && inputs.Captured? && !linked && !completed && !attempted
      modifies this
      ensures Valid() && payload.Installed? && quiesced == old(quiesced) && handled == old(handled)
      ensures (linked ==> completed || x == Raised(WitnessUncertain)) && (completed ==> linked)
      ensures x == Normal ==> LinkedLast(log) && Clear()
      ensures x.Raised? && attempted && !restored ==> !Clear()
      ensures x == Normal ==> linked && completed && (successorInputs ==> inputs.Published?)
      ensures attempted ==> replacement && complete
      ensures attempted && x.Raised? ==> Handled(old(log), log)
      ensures !successorInputs ==> inputs.Captured?
      ensures OnlyForward(old(log), log)
      ensures faults >= old(faults) && (x == Normal <==> faults == old(faults))
      ensures x == Normal ==> log == old(log) + Construction(successorInputs, complete, replacement)
    {
      hide LogIsSafe, Open, Allowed, LinkedLast, OnlyForward, Handled, LifecycleEvents;
      x := PublishFirst(successorInputs);
      if x != Normal { return; }
      ghost var published := log;
      if complete {
        x := Lifecycle(replacement);
      } else {
        x := PublishAlone();
      }
      ForwardThenForward(old(log), published, log);
    }

    /** The witness of a request that constructs nothing. */
    method PublishAlone() returns (x: Exit)
      requires Valid() && Clear() && !linked && !completed
      modifies this`linked, this`log, this`completed, this`faults
      ensures Valid() && OnlyForward(old(log), log) && (completed <==> x == Normal)
      ensures linked <==> x == Normal || x == Raised(WitnessUncertain)
      ensures x == Normal ==> Clear() && LinkedLast(log) && log == old(log) + [WitnessLinked]
      ensures faults >= old(faults) && (x == Normal <==> faults == old(faults)) && x != Raised(RuntimeUncertain)
    {
      hide LogIsSafe, Open, Allowed, LinkedLast, OnlyForward;
      LinkedAtTheEnd(log);
      x := PublishWitness();
      AppendedIsForward(old(log), if linked then [WitnessLinked, Fault] else [Fault]);
      AppendedIsForward(old(log), [WitnessLinked]);
      if x == Normal { completed := true; }
    }

    /** The publication of the inputs, and the checks after it. */
    method PublishFirst(successorInputs: bool) returns (x: Exit)
      requires Valid() && Clear() && inputs.Captured?
      modifies this`inputs, this`log, this`faults
      ensures Valid() && OnlyForward(old(log), log) && (x == Normal ==> Clear()) && x != Raised(RuntimeUncertain)
      ensures faults >= old(faults) && (x == Normal <==> faults == old(faults))
      ensures x == Normal ==> log == old(log) + if successorInputs then [InputsIntended, InputsPublished] else []
      ensures x == Normal && successorInputs ==> inputs.Published?
      ensures !successorInputs ==> inputs.Captured?
    {
      hide LogIsSafe, Open, Allowed, OnlyForward;
      x := Normal;
      AppendedIsForward(old(log), [Fault]);
      AppendedIsForward(old(log), []);
      AppendedIsForward(old(log), [InputsIntended, Fault]);
      AppendedIsForward(old(log), [InputsIntended, InputsPublished]);
      AppendedIsForward(old(log), [InputsIntended, InputsPublished, Fault]);
      if successorInputs { x := PublishInputs(); }
      if x == Normal { x := Try(); }            // definitions, access rule, archived requests
      assert || log == old(log) || log == old(log) + [Fault] || log == old(log) + [InputsIntended, Fault]
             || log == old(log) + [InputsIntended, InputsPublished]
             || log == old(log) + [InputsIntended, InputsPublished, Fault];
      assert old(log) == old(log) + [];
    }

    /** run's handler: what a failure after placement may compensate. */
    method Compensate(cause: Cause, successorInputs: bool) returns (x: Exit)
      requires Valid() && payload.Installed? && (linked ==> completed || cause.WitnessUncertain?)
      requires !successorInputs ==> inputs.Captured?
      modifies this
      ensures Valid() && x != Normal && (linked ==> completed) && quiesced == old(quiesced) && linked == old(linked)
      ensures payload.RolledBack? ==> !linked && !old(completed) && !cause.WitnessUncertain?
      ensures faults >= old(faults) && handled == old(handled) + 1
      ensures PredecessorRestarted in log ==> PredecessorRestarted in old(log)
      ensures payload.Unresolved? ==> !linked && (InputsRestored in log ==> InputsRestored in old(log))
      ensures faults == old(faults) && !old(completed) && !cause.WitnessUncertain? && (old(attempted) ==>
          old(restored)) ==>
                payload.RolledBack? && (successorInputs && old(inputs).Published? ==> inputs.Restored?)
      ensures old(inputs).Published? && inputs.Uncertain? ==> x == Raised(WitnessUncertain)
      ensures x == Raised(WitnessUncertain) ==> completed || inputs.Uncertain?
      ensures old(completed) || cause.WitnessUncertain? <==> completed
    {
      hide LogIsSafe, Open, Allowed;
      handled := handled + 1;
      BeginHandler();
      if cause.WitnessUncertain? {
        completed := true;
        return Raised(WitnessUncertain);
      }
      if completed { return Raised(WitnessUncertain); }
      if attempted && !restored { return Raised(RuntimeUncertain); }
      var ready := Try();                       // the compensation boundary rereads the restored runtime
      if ready != Normal { return Raised(if attempted then RuntimeUncertain else Plain); }
      ready := Try();                           // access rule and request inbox
      if ready != Normal { return Raised(Plain); }
      ready := UndoPayload();
      if ready != Normal { return Raised(Plain); }
      if successorInputs {
        ready := ReturnInputs();
        if ready != Normal { return ready; }
      }
      ready := Try();                           // definitions refresh and readback
      x := if ready != Normal then Raised(Plain) else Raised(cause);
    }

    /** _quiesce_installed_kernel's handler: the predecessor may restart only over its own restored files. */
    method RestartAfterFailure(successorInputs: bool, restart: bool)
      requires Valid() && (linked ==> completed)
      modifies this`inputs, this`log, this`faults
      ensures Valid()
      ensures PredecessorRestarted !in old(log) ==>
                (PredecessorRestarted in log ==>
                 quiesced && !completed && !HasNewFiles() && restart && (inputs.Captured? || inputs.Restored?))
      ensures faults >= old(faults) && (HasNewFiles() || !quiesced || completed ==> OnlyForward(old(log), log))
      ensures forall e :: e in log && e !in old(log) ==>
                            e in {Fault, HandlerBegun, InputsRestored, PredecessorRestarted}
      ensures HasNewFiles() ==> inputs == old(inputs)
      ensures faults == old(faults) && quiesced && !completed && restart && !old(HasNewFiles())
              && old(inputs) in {Captured, Published, Restored} && (!successorInputs ==> old(inputs).Captured?) ==>
                PredecessorRestarted in log
      ensures quiesced && !completed ==> HandlerBegun in log
      ensures Clear() && quiesced && !completed && restart && !HasNewFiles() && inputs in {Captured, Restored} ==>
                PredecessorRestarted in log
      ensures old(inputs) in {IntentOnly, Uncertain} ==> inputs == old(inputs)
    {
      hide LogIsSafe, Open, Allowed;
      if !quiesced || completed { return; }
      BeginHandler();
      var ready := Try();                       // verify_predecessor, which accepts no new files
      if ready != Normal || HasNewFiles() { return; }
      if successorInputs && !inputs.Restored? {
        var returned := ReturnInputs();
        if returned != Normal { return; }
      }
      ready := Try();
      if ready != Normal || !restart || inputs !in {Captured, Restored} { return; }
      RestartPredecessor();
    }

    /** The placement, and over a placed payload the guarded body with its handler. */
    method PlaceAndConstruct(successorInputs: bool, complete: bool, replacement: bool) returns (x: Exit)
      requires Valid() && payload.Predecessor? && inputs.Captured? && !linked && !completed && !attempted
      requires log == []
      modifies this
      ensures Valid() && (linked ==> completed) && quiesced == old(quiesced) && faults >= old(faults)
      ensures x == Normal <==> faults == old(faults)
      ensures x == Normal ==> linked && completed && payload.Installed? && (successorInputs ==> inputs.Published?)
      ensures x == Normal ==> log == [PayloadInstalled] + Construction(successorInputs, complete, replacement)
      ensures x == Normal ==> LinkedLast(log)
      ensures handled == old(handled) || (handled == old(handled) + 1 && x != Normal)
      ensures x != Normal && PayloadInstalled in log ==> handled == old(handled) + 1
      ensures payload.Unresolved? ==> x != Normal && !linked && InputsRestored !in log
      ensures PredecessorRestarted !in log
      ensures x == Raised(WitnessUncertain) ==> completed || inputs.Uncertain?
    {
      hide LogIsSafe, Open, Allowed, Construction, LinkedLast, Handled;
      NothingOpen();
      x := PlacePayload();
      if payload.Installed? {
        x := Construct(successorInputs, complete, replacement);
        if x.Raised? { x := Compensate(x.cause, successorInputs); }
      }
    }

    /** run */
    method Execute(successor: bool, successorInputs: bool, complete: bool, replacement: bool, restart: bool)
      returns (x: Exit)
      requires Valid() && payload.Predecessor? && inputs.Captured? && !linked && !completed && !attempted && !quiesced
      requires log == []
      modifies this
      ensures Valid() && (linked ==> completed)
      ensures x == Normal ==> linked && payload.Installed? && (successorInputs ==> inputs.Published?)
      ensures x == Normal ==> log == [PayloadInstalled] + Construction(successorInputs, complete, replacement)
      ensures x == Normal ==> faults == old(faults) && completed && quiesced == successor
      ensures faults == old(faults) ==> x == Normal
      ensures x != Normal && PayloadInstalled in log && !completed ==> handled == old(handled) + 1
      ensures payload.Unresolved? ==> x != Normal && !linked && PredecessorRestarted !in log && InputsRestored !in log
      ensures PredecessorRestarted in log ==> quiesced && !linked && !HasNewFiles() && restart
      ensures RestoredAfterLink(log) ==> x == Raised(WitnessUncertain)
      ensures completed && x != Normal ==> x == Raised(WitnessUncertain)
      ensures x == Raised(WitnessUncertain) ==> completed || inputs.Uncertain?
      ensures x.Raised? && quiesced && !completed ==> HandlerBegun in log
      ensures x.Raised? && Clear() && quiesced && !completed && restart && !HasNewFiles() ==>
                inputs in {Captured, Restored} ==> PredecessorRestarted in log
    {
      hide LogIsSafe, Open, Allowed, Construction;
      x := Try();                               // request, plan, prestate
      if x == Normal && successor {
        quiesced := true;
        x := Try();
      }
      if x == Normal { x := PlaceAndConstruct(successorInputs, complete, replacement); }
      if x != Normal {
        RestartAfterFailure(successorInputs, restart);
      }
      if x == Normal { x := Try(); }            // directory identity on the way out
      if x != Normal && completed { x := Raised(WitnessUncertain); }
    }
  }

  // ----- what a safe log says

  lemma {:induction false} SafePrefix(log: seq<Event>, j: nat)
    requires LogIsSafe(log) && j < |log|
    ensures LogIsSafe(log[..j]) && Allowed(log[..j], log[j])
  {
    if j < |log| - 1 {
      SafePrefix(log[..|log| - 1], j);
      assert log[..|log| - 1][..j] == log[..j];
    }
  }

  lemma {:induction false} ClosedWasAnswered(log: seq<Event>, a: Event, b: Event, i: nat)
    requires !Open(log, a, b) && i < |log| && log[i] == a && a != b
    ensures exists m :: i < m < |log| && log[m] == b
  {
    var last := |log| - 1;
    if log[last] == b {
      assert i < last;
    } else {
      ClosedWasAnswered(log[..last], a, b, i);
      var m :| i < m < last && log[..last][m] == b;
      assert log[m] == b;
    }
  }

  /** Over every run: nothing is compensated after the witness name is linked; no payload rollback with
      an unanswered runtime attempt; no input restore and no predecessor restart over new files. */
  lemma CompensationIsOrdered(log: seq<Event>, i: nat, j: nat)
    requires LogIsSafe(log) && i < j < |log|
    ensures log[i] == WitnessLinked ==> !Compensation(log[j])
    ensures log[i] == RuntimeAttempted && log[j] in {PayloadRolledBack, PayloadUnresolved} ==>
              exists m :: i < m < j && log[m] == RuntimeRestored
    ensures log[i] in {PayloadInstalled, PayloadUnresolved} && log[j] in {InputsRestored, PredecessorRestarted} ==>
              exists m :: i < m < j && log[m] == PayloadRolledBack
  {
    SafePrefix(log, j);
    var past := log[..j];
    assert past[i] == log[i];
    if log[i] == RuntimeAttempted && log[j] in {PayloadRolledBack, PayloadUnresolved} {
      ClosedWasAnswered(past, RuntimeAttempted, RuntimeRestored, i);
      var m :| i < m < |past| && past[m] == RuntimeRestored;
      assert log[m] == RuntimeRestored;
    }
    if log[i] in {PayloadInstalled, PayloadUnresolved} && log[j] in {InputsRestored, PredecessorRestarted} {
      ClosedWasAnswered(past, log[i], PayloadRolledBack, i);
      var m :| i < m < |past| && past[m] == PayloadRolledBack;
      assert log[m] == PayloadRolledBack;
    }
  }

  /** Over every run: after a fault nothing more is done until a handler takes over, and the predecessor restarts
      only after an intended transition of the inputs was restored. */
  lemma FaultsStopEffects(log: seq<Event>, i: nat, j: nat)
    requires LogIsSafe(log) && i < j < |log|
    ensures log[i] == Fault && log[j] !in {Fault, HandlerBegun, PayloadUnresolved} ==>
              exists m :: i < m < j && log[m] == HandlerBegun
    ensures log[i] == InputsIntended && log[j] == PredecessorRestarted ==>
              exists m :: i < m < j && log[m] == InputsRestored
  {
    SafePrefix(log, j);
    var past := log[..j];
    assert past[i] == log[i];
    if log[i] == Fault && Effect(log[j]) {
      ClosedWasAnswered(past, Fault, HandlerBegun, i);
      var m :| i < m < |past| && past[m] == HandlerBegun;
      assert log[m] == HandlerBegun;
    }
    if log[i] == InputsIntended && log[j] == PredecessorRestarted {
      ClosedWasAnswered(past, InputsIntended, InputsRestored, i);
      var m :| i < m < |past| && past[m] == InputsRestored;
      assert log[m] == InputsRestored;
    }
  }
}
