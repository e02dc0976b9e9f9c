/** The owner of one whole-Kernel construction: a stack of constituent cleanups, and the ledger of
    observation requests that this execution created. */
module LifecycleOwnership {

  import opened Wrappers

  /** One observation request; `rest` is whatever else it says.  Encodings and digests are injective,
      so requests and observed bytes stand for themselves. */
  datatype Request = Request(id: string, nonce: string, rest: string)

  type Raw = string
  const RAW_LIMIT := 65536

  datatype Phase = AuthorityPhase | OperationsPhase | InterfacePhase | CompanionPhase | ResidencyPhase

  datatype Outcome<+T> = Done(value: T) | Denied

  // ----- request lists

  function Ids(rs: seq<Request>): set<string> { set r | r in rs :: r.id }
  function Nonces(rs: seq<Request>): set<string> { set r | r in rs :: r.nonce }

  /** Non-empty, every id and nonce given and used once. */
  predicate SingleUse(rs: seq<Request>) {
    && rs != []
    && (forall r :: r in rs ==> r.id != "" && r.nonce != "")
    && forall i, j :: 0 <= i < j < |rs| ==> rs[i].id != rs[j].id && rs[i].nonce != rs[j].nonce
  }

  /** Two reservations share neither an id nor a nonce. */
  predicate Apart(a: seq<Request>, b: seq<Request>) {
    forall r, q :: r in a && q in b ==> r.id != q.id && r.nonce != q.nonce
  }

  lemma ApartIsDisjoint(a: seq<Request>, b: seq<Request>)
    ensures Apart(a, b) <==> Ids(a) * Ids(b) == {} && Nonces(a) * Nonces(b) == {}
  {
    if Ids(a) * Ids(b) == {} && Nonces(a) * Nonces(b) == {} {
      forall r, q | r in a && q in b ensures r.id != q.id && r.nonce != q.nonce {
        assert r.id in Ids(a) && q.id in Ids(b) && r.nonce in Nonces(a) && q.nonce in Nonces(b);
        assert r.id !in Ids(a) * Ids(b) && r.nonce !in Nonces(a) * Nonces(b);
      }
    }
  }

  function AllIds(reserved: seq<seq<Request>>): set<string> {
    if reserved == [] then {} else AllIds(reserved[..|reserved| - 1]) + Ids(reserved[|reserved| - 1])
  }

  function AllNonces(reserved: seq<seq<Request>>): set<string> {
    if reserved == [] then {} else AllNonces(reserved[..|reserved| - 1]) + Nonces(reserved[|reserved| - 1])
  }

  /** No id or nonce twice, ever; each reservation is pending or consumed, and consumed by one byte string. */
  ghost predicate LedgerOk(closed: bool, observations: map<Raw, seq<Request>>, requests: set<string>,
      nonces: set<string>,
                           pending: set<seq<Request>>, reserved: seq<seq<Request>>, consumed: map<Raw, seq<Request>>)
  {
    && HistoryOk(reserved, consumed)
    && (closed ==> observations == map[] && pending == {} && requests == {} && nonces == {})
    && (!closed ==>
          && requests == AllIds(reserved) && nonces == AllNonces(reserved)
          && observations == consumed
          && (forall rs :: rs in pending ==> rs in reserved && Unspent(rs, consumed)))
  }

  /** The reservation was not retained for any bytes. */
  ghost predicate Unspent(rs: seq<Request>, consumed: map<Raw, seq<Request>>) {
    forall raw :: raw in consumed ==> consumed[raw] != rs
  }

  ghost predicate HistoryOk(reserved: seq<seq<Request>>, consumed: map<Raw, seq<Request>>) {
    && (forall i :: 0 <= i < |reserved| ==> SingleUse(reserved[i]))
    && (forall i, j :: 0 <= i < j < |reserved| ==> Apart(reserved[i], reserved[j]))
    && (forall raw :: raw in consumed ==> consumed[raw] in reserved)
    && (forall raw, other :: raw in consumed && other in consumed && raw != other ==> consumed[raw] != consumed[other])
  }

  /** Cleanups run in reverse order of retention, each at most once, and none after one that raised. */
  ghost predicate StackOk(closed: bool, failed: bool, cleanups: seq<Phase>, retained: seq<Phase>, started: seq<Phase>,
                          begun: seq<Phase>, returned: seq<Phase>)
  {
    && (forall i, j :: 0 <= i < j < |retained| ==> retained[i] != retained[j])
    && (forall p :: p in started ==> p in retained)
    && Reversal(begun, retained)
    && returned == (if failed then begun[..if |begun| > 0 then |begun| - 1 else 0] else begun)
    && (failed ==> closed && |begun| > 0)
    && (!closed ==> begun == [] && cleanups == retained)
  }

  /** A prefix of the reversed retention order. */
  ghost predicate Reversal(begun: seq<Phase>, retained: seq<Phase>) {
    |begun| <= |retained| && forall i :: 0 <= i < |begun| ==> begun[i] == retained[|retained| - 1 - i]
  }

  lemma {:induction false} NotYetUsed(reserved: seq<seq<Request>>, rs: seq<Request>)
    ensures (Ids(rs) * AllIds(reserved) == {} && Nonces(rs) * AllNonces(reserved) == {})
            <==> forall i :: 0 <= i < |reserved| ==> Apart(reserved[i], rs)
  {
    if reserved != [] {
      var front, last := reserved[..|reserved| - 1], reserved[|reserved| - 1];
      NotYetUsed(front, rs);
      ApartIsDisjoint(last, rs);
      assert Ids(rs) * AllIds(reserved) == Ids(rs) * AllIds(front) + Ids(last) * Ids(rs);
      assert Nonces(rs) * AllNonces(reserved) == Nonces(rs) * AllNonces(front) + Nonces(last) * Nonces(rs);
      assert (forall i :: 0 <= i < |reserved| ==> Apart(reserved[i], rs))
             <==> (forall i :: 0 <= i < |front| ==> Apart(front[i], rs)) && Apart(last, rs) by {
        assert forall i :: 0 <= i < |front| ==> reserved[i] == front[i];
        hide Apart;
      }
    }
  }

  lemma ReservationKeepsLedger(observations: map<Raw, seq<Request>>, pending: set<seq<Request>>,
                               reserved: seq<seq<Request>>, consumed: map<Raw, seq<Request>>, rs: seq<Request>)
    requires LedgerOk(false, observations, AllIds(reserved), AllNonces(reserved), pending, reserved, consumed)
    requires SingleUse(rs) && forall i :: 0 <= i < |reserved| ==> Apart(reserved[i], rs)
    ensures LedgerOk(false, observations, AllIds(reserved) + Ids(rs), AllNonces(reserved) + Nonces(rs), pending + {rs},
                     reserved + [rs], consumed)
  {
    hide HistoryOk, SingleUse, Apart, AllIds, AllNonces, Ids, Nonces, Unspent;
    HistoryGrows(reserved, consumed, rs);
    AllGrow(reserved, rs);
    assert forall q :: q in reserved + [rs] <==> q in reserved || q == rs;
  }

  lemma AllGrow(reserved: seq<seq<Request>>, rs: seq<Request>)
    ensures AllIds(reserved + [rs]) == AllIds(reserved) + Ids(rs)
    ensures AllNonces(reserved + [rs]) == AllNonces(reserved) + Nonces(rs)
  {
  }

  lemma HistoryGrows(reserved: seq<seq<Request>>, consumed: map<Raw, seq<Request>>, rs: seq<Request>)
    requires HistoryOk(reserved, consumed)
    requires SingleUse(rs) && forall i :: 0 <= i < |reserved| ==> Apart(reserved[i], rs)
    ensures HistoryOk(reserved + [rs], consumed)
    ensures Unspent(rs, consumed)
  {
    if rs in reserved { SingleUseMeetsItself(rs); }
    hide SingleUse, Apart;
  }

  lemma RetentionKeepsLedger(observations: map<Raw, seq<Request>>, requests: set<string>, nonces: set<string>,
                             pending: set<seq<Request>>, reserved: seq<seq<Request>>,
                             consumed: map<Raw, seq<Request>>, raw: Raw, rs: seq<Request>)
    requires LedgerOk(false, observations, requests, nonces, pending, reserved, consumed)
    requires rs in pending && raw !in observations
    ensures LedgerOk(false, observations[raw := rs], requests, nonces, pending - {rs}, reserved, consumed[raw := rs])
  {
  }

  /** Popping the stack extends the reversal by its next phase, whether the cleanup returns or raises. */
  lemma PopKeepsStack(cleanups: seq<Phase>, retained: seq<Phase>, started: seq<Phase>, begun: seq<Phase>)
    requires StackOk(true, false, cleanups, retained, started, begun, begun) && cleanups != []
    requires cleanups == retained[..|retained| - |begun|]
    ensures var n := |cleanups| - 1; var now := begun + [cleanups[n]];
            && |now| <= |retained| && cleanups[..n] == retained[..|retained| - |now|]
            && StackOk(true, false, cleanups[..n], retained, started, now, now)
            && StackOk(true, true, cleanups[..n], retained, started, now, begun)
  {
  }

  class Owner {
    var closed: bool
    var failed: bool
    var observations: map<Raw, seq<Request>>
    var requests: set<string>
    var nonces: set<string>
    var pending: set<seq<Request>>
    var cleanups: seq<Phase>

    // history
    ghost var reserved: seq<seq<Request>>          // every reservation, in order
    ghost var consumed: map<Raw, seq<Request>>     // every retention, kept past the close
    ghost var retained: seq<Phase>                 // every retained cleanup, in order
    ghost var started: seq<Phase>
    ghost var begun: seq<Phase>                    // cleanups that were run, in order
    ghost var returned: seq<Phase>                 // those that returned
    ghost var faults: nat                          // checks and calls of the contexts that raised

    constructor ()
      ensures Valid() && Fresh() && !closed
    {
      closed, failed, observations, requests, nonces, pending, cleanups := false, false, map[], {}, {}, {}, [];
      reserved, consumed, retained, started, begun, returned, faults := [], map[], [], [], [], [], 0;
    }

    ghost predicate Fresh()
      reads this
    {
      reserved == [] && consumed == map[] && retained == [] && started == [] && begun == [] && returned == [] &&
          faults == 0
    }

    ghost predicate Valid()
      reads this
    {
      LedgerValid() && StackValid()
    }

    ghost predicate LedgerValid()
      reads this
    {
      LedgerOk(closed, observations, requests, nonces, pending, reserved, consumed)
    }

    ghost predicate StackValid()
      reads this
    {
      StackOk(closed, failed, cleanups, retained, started, begun, returned)
    }

    // ----- the ledger

    /** reserve_observation */
    method ReserveObservation(rs: seq<Request>) returns (r: Outcome<seq<Request>>)
      requires Valid()
      modifies this`requests, this`nonces, this`pending, this`reserved
      ensures Valid()
      ensures r.Done? <==> && !closed && rs != [] && (forall q :: q in rs ==> q.id != "" && q.nonce != "")
                           && (forall i, j :: 0 <= i < j < |rs| ==> rs[i].id != rs[j].id && rs[i].nonce != rs[j].nonce)
                           && forall i, p, q :: 0 <= i < |old(reserved)| && p in old(reserved)[i] && q in rs ==>
                                p.id != q.id && p.nonce != q.nonce
      ensures r.Done? ==> r.value == rs && reserved == old(reserved) + [rs] && pending == old(pending) + {rs}
      ensures r.Denied? ==> reserved == old(reserved) && pending == old(pending)
                            && requests == old(requests) && nonces == old(nonces)
    {
      hide HistoryOk, StackOk, AllIds, AllNonces, Unspent;
      if closed || !SingleUse(rs) { return Denied; }
      NotYetUsed(reserved, rs);
      if Ids(rs) * requests != {} || Nonces(rs) * nonces != {} { return Denied; }
      ReservationKeepsLedger(observations, pending, reserved, consumed, rs);
      requests, nonces, pending := requests + Ids(rs), nonces + Nonces(rs), pending + {rs};
      reserved := reserved + [rs];
      r := Done(rs);
    }

    /** retain_observation: the exact reservation is spent on these exact bytes. */
    method RetainObservation(raw: Raw, rs: seq<Request>) returns (r: Outcome<()>)
      requires Valid()
      modifies this`pending, this`observations, this`consumed
      ensures Valid()
      ensures r.Done? <==> !closed && 0 < |raw| <= 65536 && rs in old(pending) && raw !in old(observations)
      ensures r.Done? ==> consumed == old(consumed)[raw := rs] && observations == old(observations)[raw := rs]
                          && pending == old(pending) - {rs}
      ensures r.Denied? ==> consumed == old(consumed) && observations == old(observations) && pending == old(pending)
    {
      hide HistoryOk, StackOk;
      if closed || raw == [] || |raw| > RAW_LIMIT || rs == [] || rs !in pending || raw in observations {
        if !closed { PendingIsSingleUse(this); }
        return Denied;
      }
      RetentionKeepsLedger(observations, requests, nonces, pending, reserved, consumed, raw, rs);
      pending := pending - {rs};
      observations := observations[raw := rs];
      consumed := consumed[raw := rs];
      r := Done(());
    }

    /** expected_observation */
    method ExpectedObservation(raw: Raw) returns (r: Outcome<seq<Request>>)
      requires Valid()
      ensures r.Done? <==> !closed && raw in consumed
      ensures r.Done? ==> r.value == consumed[raw]
    {
      if closed || raw !in observations { return Denied; }
      r := Done(observations[raw]);
    }

    // ----- the cleanup stack

    /** retain */
    method Retain(p: Phase) returns (r: Outcome<()>)
      requires Valid() && p !in retained
      modifies this`cleanups, this`retained
      ensures Valid()
      ensures r.Done? <==> !closed
      ensures retained == if closed then old(retained) else old(retained) + [p]
    {
      if closed { return Denied; }
      cleanups, retained := cleanups + [p], retained + [p];
      r := Done(());
    }

    /** A check or a call of a context, which may raise. */
    method Try() returns (ok: bool)
      modifies this`faults
      ensures faults == if ok then old(faults) else old(faults) + 1
    {
      ok := *;
      if !ok { faults := faults + 1; }
    }

    /** A start command of a phase; its cleanup must already be retained. */
    method Start(p: Phase)
      requires Valid() && !closed && p in retained
      modifies this`started
      ensures Valid() && started == old(started) + [p]
    {
      started := started + [p];
    }

    /** One cleanup: what it stops is its own business; it may raise. */
    method RunCleanup(p: Phase) returns (ok: bool)
      modifies this`begun, this`returned
      ensures begun == old(begun) + [p]
      ensures returned == if ok then old(returned) + [p] else old(returned)
    {
      begun := begun + [p];
      ok := *;
      if ok { returned := returned + [p]; }
    }

    /** abort: unwinds the stack, remembers the first cleanup that raised and never goes past it. */
    method Abort() returns (ok: bool)
      requires Valid()
      modifies this
      ensures Valid() && closed && retained == old(retained) && started == old(started)
      ensures reserved == old(reserved) && consumed == old(consumed) && faults == old(faults)
      ensures old(closed) ==> begun == old(begun) && returned == old(returned) && failed == old(failed)
      ensures ok <==> !failed
      ensures !old(closed) ==> (if ok then Unwound() else begun != [] && returned == begun[..|begun| - 1])
    {
      hide HistoryOk, AllIds, AllNonces, Unspent;
      if failed { return false; }
      if closed { return true; }
      closed := true;
      observations, pending, requests, nonces := map[], {}, {}, {};
      assert cleanups == retained[..|retained|];
      ok := Unwind();
    }

    /** The popping loop of abort. */
    method Unwind() returns (ok: bool)
      requires StackValid() && closed && !failed && begun == returned == [] && cleanups == retained[..|retained|]
      modifies this`cleanups, this`begun, this`returned, this`failed
      ensures StackValid() && (ok <==> !failed)
      ensures if ok then Unwound() else begun != [] && returned == begun[..|begun| - 1]
    {
      hide StackOk;
      while cleanups != []
        invariant StackValid() && !failed && returned == begun
        invariant |begun| <= |retained| && cleanups == retained[..|retained| - |begun|]
        decreases |cleanups|
      {
        PopKeepsStack(cleanups, retained, started, begun);
        var p := cleanups[|cleanups| - 1];
        cleanups := cleanups[..|cleanups| - 1];
        var clean := RunCleanup(p);
        if !clean {
          failed := true;
          return false;
        }
      }
      EmptyStackIsUnwound(this);
      ok := true;
    }

    /** Every retained cleanup ran and returned, latest first. */
    ghost predicate Unwound()
      reads this
    {
      |returned| == |retained| && forall i :: 0 <= i < |retained| ==> returned[i] == retained[|retained| - 1 - i]
    }

    /** commit */
    method Commit() returns (r: Outcome<()>)
      requires Valid()
      modifies this
      ensures Valid() && closed && (r.Done? <==> !old(closed))
      ensures begun == old(begun) && returned == old(returned) && retained == old(retained) && failed == old(failed)
      ensures started == old(started) && reserved == old(reserved) && consumed == old(consumed) && faults == old(faults)
    {
      hide HistoryOk, AllIds, AllNonces, Unspent;
      if closed { return Denied; }
      cleanups, closed := [], true;
      observations, pending, requests, nonces := map[], {}, {}, {};
      r := Done(());
    }
  }

  lemma EmptyStackIsUnwound(o: Owner)
    requires o.StackValid() && !o.failed && |o.begun| <= |o.retained|
    requires [] == o.retained[..|o.retained| - |o.begun|]
    ensures o.Unwound()
  {
  }

  /** Over everything an owner ever reserved: no id and no nonce twice. */
  lemma NothingReservedTwice(o: Owner)
    requires o.Valid()
    ensures forall i, j, p, q :: 0 <= i < j < |o.reserved| && p in o.reserved[i] && q in o.reserved[j] ==>
              p.id != q.id && p.nonce != q.nonce
    ensures forall i, k, m :: 0 <= i < |o.reserved| && 0 <= k < m < |o.reserved[i]| ==>
              o.reserved[i][k].id != o.reserved[i][m].id && o.reserved[i][k].nonce != o.reserved[i][m].nonce
  {
    assert forall i, j :: 0 <= i < j < |o.reserved| ==> Apart(o.reserved[i], o.reserved[j]);
    assert forall i :: 0 <= i < |o.reserved| ==> SingleUse(o.reserved[i]);
  }

  lemma PendingIsSingleUse(o: Owner)
    requires o.Valid() && !o.closed
    ensures forall rs :: rs in o.pending ==> SingleUse(rs)
  {
  }

  lemma SingleUseMeetsItself(rs: seq<Request>)
    requires SingleUse(rs)
    ensures !Apart(rs, rs)
  {
    assert rs[0] in rs;
  }

  /** A prerequisite's cleanup begins only after the cleanups of everything retained later returned. */
  lemma PrerequisitesCleanedLast(o: Owner, p: nat, q: nat)
    requires o.Valid() && p < q < |o.retained| && o.retained[p] in o.begun
    ensures o.retained[q] in o.returned
  {
    var i :| 0 <= i < |o.begun| && o.begun[i] == o.retained[p];
    assert o.retained[|o.retained| - 1 - i] == o.retained[p];
    assert o.begun[|o.retained| - 1 - q] == o.retained[q];
    assert o.returned[|o.retained| - 1 - q] == o.retained[q];
  }

  /** No cleanup ever runs twice. */
  lemma CleanupsRunOnce(o: Owner)
    requires o.Valid()
    ensures forall i, j :: 0 <= i < j < |o.begun| ==> o.begun[i] != o.begun[j]
  {
  }
}
