/** The nested lifecycle contexts of one whole-Kernel construction: Authority around Operations around
    Interface, then the optional runtime replacement, then the resident model. */
module LifecycleNesting {
  import opened LifecycleOwnership

  predicate Distinct(phases: seq<Phase>) {
    forall i, j :: 0 <= i < j < |phases| ==> phases[i] != phases[j]
  }

  /** The contexts of a construction with or without a runtime replacement. */
  function Contexts(replacement: bool): (phases: seq<Phase>)
    ensures Distinct(phases)
  {
    if replacement then [AuthorityPhase, OperationsPhase, InterfacePhase, CompanionPhase, ResidencyPhase]
    else [AuthorityPhase, OperationsPhase, InterfacePhase, ResidencyPhase]
  }

  /** After a failure: the stack unwound completely, or stopped at the first cleanup that raised. */
  ghost predicate Settled(o: Owner)
    reads o
  {
    o.closed && (o.failed || o.Unwound())
  }

  lemma OpenOwnerHasNotBegun(o: Owner)
    requires o.Valid() && !o.closed
    ensures o.begun == []
  {
  }

  /** One context and everything inside it.  The cleanup is retained before the first start; any later
      exception aborts the owner and propagates outwards. */
  method Nest(o: Owner, phases: seq<Phase>, k: nat) returns (ok: bool)
    requires o.Valid() && !o.closed && Distinct(phases) && k <= |phases|
    requires o.retained == phases[..k] && o.started == phases[..k]
    modifies o
    ensures o.Valid() && o.faults >= old(o.faults) && (ok <==> o.faults == old(o.faults))
    ensures ok ==> !o.closed && o.begun == [] && o.retained == phases && o.started == phases
    ensures !ok ==> o.closed ==> Settled(o)
    ensures !ok && !o.closed ==> o.retained == o.started == phases[..k]
    ensures |o.retained| <= |phases| && o.retained == o.started == phases[..|o.retained|]
    decreases |phases| - k
  {
    hide LedgerOk, StackOk;
    OpenOwnerHasNotBegun(o);
    ok := o.Try();                        // entry checks, or the innermost observations
    if !ok { return; }
    if k == |phases| {
      assert phases[..k] == phases;
      return;
    }
    var p := phases[k];
    assert p !in phases[..k];
    var kept := o.Retain(p);
    assert phases[..k + 1] == phases[..k] + [p];
    o.Start(p);
    ok := o.Try();                        // the start commands and their readback
    if ok { ok := Nest(o, phases, k + 1); }
    if ok { ok := o.Try(); }              // the context's own closing check
    if !ok { var clean := o.Abort(); }
  }

  /** _complete_kernel_lifecycle: it commits exactly when nothing raised, and then nothing was cleaned up; on
      failure everything that was retained is, unless a cleanup itself raised. */
  method CompleteLifecycle(replacement: bool) returns (o: Owner, committed: bool)
    ensures fresh(o) && o.Valid() && o.closed && (committed <==> o.faults == 0)
    ensures var contexts := [AuthorityPhase, OperationsPhase, InterfacePhase]
                            + (if replacement then [CompanionPhase] else []) + [ResidencyPhase];
            && o.retained == o.started && o.retained <= contexts
            && (committed ==> o.begun == [] && o.retained == contexts)
    ensures !committed ==> Settled(o)
  {
    hide LedgerOk, StackOk;
    o := new Owner();
    var phases := Contexts(replacement);
    assert phases == [AuthorityPhase, OperationsPhase, InterfacePhase]
                     + (if replacement then [CompanionPhase] else []) + [ResidencyPhase];
    hide Contexts;
    var ok := Nest(o, phases, 0);
    if ok { ok := o.Try(); }              // every retained check, then finalize under the armed owner
    if !ok {
      var clean := o.Abort();
      return o, false;
    }
    var sealed := o.Commit();
    committed := true;
  }

  /** A failed construction without a raising cleanup stopped every started phase, and a prerequisite
      only after all its dependants. */
  lemma FailureStopsEverything(o: Owner, p: nat, q: nat)
    requires o.Valid() && Settled(o) && !o.failed && p < q < |o.retained|
    ensures forall s :: s in o.started ==> s in o.returned
    ensures exists i, j :: 0 <= i < j < |o.returned| && o.returned[i] == o.retained[q] && o.returned[j] == o.retained[p]
  {
    var n := |o.retained|;
    assert o.returned[n - 1 - q] == o.retained[q] && o.returned[n - 1 - p] == o.retained[p];
    forall s | s in o.started ensures s in o.returned {
      var i :| 0 <= i < n && o.retained[i] == s;
      assert o.returned[n - 1 - i] == s;
    }
  }
}
